/**
 * The signed-in user and the list of saved configurations
 * (src/store/authStore.ts, src/types/auth.ts).
 */
module AuthStore {
  import opened Wrappers
  import opened Book
  import opened Text

  datatype SavedConfig = SavedConfig(id: string, name: string, config: BookConfig, timestamp: int)

  datatype User = User(id: string, email: Option<string>, name: Option<string>, savedConfigs: seq<SavedConfig>)

  /** `Partial<SavedConfig>`: each field that is present overrides the entry's. */
  datatype SavedConfigUpdate = SavedConfigUpdate(
    id: Option<string>, name: Option<string>, config: Option<BookConfig>, timestamp: Option<int>)

  /** The slice of the store that the persist middleware writes to storage. */
  datatype PersistedState = PersistedState(user: Option<User>, savedConfigs: seq<SavedConfig>, isAuthenticated: bool)

  /** `{ ...entry, ...updates }`. */
  function ApplyUpdate(entry: SavedConfig, u: SavedConfigUpdate): (r: SavedConfig)
    ensures r.id == u.id.GetOr(entry.id) && r.name == u.name.GetOr(entry.name)
    ensures r.config == u.config.GetOr(entry.config) && r.timestamp == u.timestamp.GetOr(entry.timestamp)
  {
    SavedConfig(u.id.GetOr(entry.id), u.name.GetOr(entry.name), u.config.GetOr(entry.config),
                u.timestamp.GetOr(entry.timestamp))
  }

  /** The name of a new entry: the given one unless it is missing or empty, else "Book n+1". */
  function EntryName(count: nat, name: Option<string>): (r: string)
    ensures name.Some? && name.value != "" ==> r == name.value
    ensures !(name.Some? && name.value != "") ==> |r| > 5 && r[..5] == "Book " && r[5..] == NatToString(count + 1)
  {
    if name.Some? && name.value != "" then name.value else "Book " + NatToString(count + 1)
  }

  /** Default names of lists of different lengths differ. */
  lemma DefaultNamesDistinct(m: nat, n: nat)
    requires m != n
    ensures EntryName(m, None) != EntryName(n, None)
  {
    var a, b := EntryName(m, None), EntryName(n, None);
    assert DigitsValue(a[5..]) == m + 1 && DigitsValue(b[5..]) == n + 1;
  }

  /** `savedConfigs.filter(c => c.id !== id)`. */
  function WithoutId(s: seq<SavedConfig>, id: string): (r: seq<SavedConfig>)
    ensures |r| <= |s|
    ensures forall i :: 0 <= i < |r| ==> r[i].id != id
  {
    if s == [] then []
    else if s[0].id == id then WithoutId(s[1..], id)
    else [s[0]] + WithoutId(s[1..], id)
  }

  /** Filtering a concatenation filters each part. */
  lemma {:induction false} WithoutIdConcat(a: seq<SavedConfig>, b: seq<SavedConfig>, id: string)
    ensures WithoutId(a + b, id) == WithoutId(a, id) + WithoutId(b, id)
  {
    if a == [] {
      assert a + b == b;
    } else {
      assert (a + b)[0] == a[0] && (a + b)[1..] == a[1..] + b;
      WithoutIdConcat(a[1..], b, id);
    }
  }

  /** Every entry with another id keeps its multiplicity; entries with `id` are all gone. */
  lemma {:induction false} WithoutIdCounts(s: seq<SavedConfig>, id: string, e: SavedConfig)
    ensures multiset(WithoutId(s, id))[e] == if e.id == id then 0 else multiset(s)[e]
  {
    if s != [] {
      WithoutIdCounts(s[1..], id, e);
      assert s == [s[0]] + s[1..];
    }
  }

  /** Deleting an id that is not in the list changes nothing. */
  lemma {:induction false} WithoutAbsentId(s: seq<SavedConfig>, id: string)
    requires forall i :: 0 <= i < |s| ==> s[i].id != id
    ensures WithoutId(s, id) == s
  {
    if s != [] {
      WithoutAbsentId(s[1..], id);
    }
  }

  /** `savedConfigs.map(c => c.id === id ? { ...c, ...updates } : c)`. */
  function MergedById(s: seq<SavedConfig>, id: string, u: SavedConfigUpdate): (r: seq<SavedConfig>)
    ensures |r| == |s|
    ensures forall i :: 0 <= i < |s| && s[i].id != id ==> r[i] == s[i]
    ensures forall i :: 0 <= i < |s| && s[i].id == id ==> r[i] == ApplyUpdate(s[i], u)
  {
    seq(|s|, i requires 0 <= i < |s| => if s[i].id == id then ApplyUpdate(s[i], u) else s[i])
  }

  /** Updating entries without touching their ids, then deleting that id, is just deleting it. */
  lemma {:induction false} UpdateThenDelete(s: seq<SavedConfig>, id: string, u: SavedConfigUpdate)
    requires u.id.None?
    ensures WithoutId(MergedById(s, id, u), id) == WithoutId(s, id)
  {
    if s != [] {
      var m := MergedById(s, id, u);
      assert m[1..] == MergedById(s[1..], id, u);
      UpdateThenDelete(s[1..], id, u);
    }
  }

  /** Saving appends after entries already there, and deleting the new entry's id removes it again. */
  lemma SaveThenDelete(s: seq<SavedConfig>, entry: SavedConfig)
    requires forall i :: 0 <= i < |s| ==> s[i].id != entry.id
    ensures WithoutId(s + [entry], entry.id) == s
  {
    WithoutIdConcat(s, [entry], entry.id);
    WithoutAbsentId(s, entry.id);
  }

  class AuthState {
    var user: Option<User>
    var isAuthenticated: bool
    var isLoading: bool
    var showAuthModal: bool
    var showProfileModal: bool
    var savedConfigs: seq<SavedConfig>

    /**
     * The authenticated flag always tells whether there is a user. This is an
     * invariant the store is observed to keep, not a precondition of any
     * action: the constructor, `setUser` and `logout` establish it and every
     * other action keeps it as it was.
     */
    ghost predicate Valid()
      reads this
    {
      isAuthenticated <==> user.Some?
    }

    /** `partialize`: only the user, the saved list and the authenticated flag are stored. */
    function Persisted(): (p: PersistedState)
      reads this
      ensures p.user == user && p.savedConfigs == savedConfigs && p.isAuthenticated == isAuthenticated
    {
      PersistedState(user, savedConfigs, isAuthenticated)
    }

    constructor()
      ensures Valid()
      ensures user == None && !isAuthenticated && isLoading
      ensures !showAuthModal && !showProfileModal && savedConfigs == []
    {
      user := None;
      isAuthenticated := false;
      isLoading := true;
      showAuthModal := false;
      showProfileModal := false;
      savedConfigs := [];
    }

    method SetUser(u: Option<User>)
      modifies this
      ensures Valid()
      ensures user == u && isAuthenticated == u.Some?
      ensures isLoading == old(isLoading) && savedConfigs == old(savedConfigs)
      ensures showAuthModal == old(showAuthModal) && showProfileModal == old(showProfileModal)
    {
      user := u;
      isAuthenticated := u.Some?;
    }

    /** Opening or closing a modal is not persisted. */
    method SetShowAuthModal(show: bool)
      modifies this
      ensures Valid() == old(Valid())
      ensures showAuthModal == show && Persisted() == old(Persisted())
      ensures isLoading == old(isLoading) && showProfileModal == old(showProfileModal)
    {
      showAuthModal := show;
    }

    method SetShowProfileModal(show: bool)
      modifies this
      ensures Valid() == old(Valid())
      ensures showProfileModal == show && Persisted() == old(Persisted())
      ensures isLoading == old(isLoading) && showAuthModal == old(showAuthModal)
    {
      showProfileModal := show;
    }

    /**
     * saveConfig. `idTime` and `stampTime` are the two readings of the clock:
     * the id is the first one in decimal, the timestamp the second.
     */
    method SaveConfig(config: BookConfig, name: Option<string>, idTime: nat, stampTime: int)
      modifies this
      ensures Valid() == old(Valid())
      ensures savedConfigs == old(savedConfigs)
        + [SavedConfig(NatToString(idTime), EntryName(|old(savedConfigs)|, name), config, stampTime)]
      ensures user == old(user) && isAuthenticated == old(isAuthenticated) && isLoading == old(isLoading)
      ensures showAuthModal == old(showAuthModal) && showProfileModal == old(showProfileModal)
    {
      var entry := SavedConfig(NatToString(idTime), EntryName(|savedConfigs|, name), config, stampTime);
      savedConfigs := savedConfigs + [entry];
    }

    method DeleteConfig(id: string)
      modifies this
      ensures Valid() == old(Valid())
      ensures savedConfigs == WithoutId(old(savedConfigs), id)
      ensures user == old(user) && isAuthenticated == old(isAuthenticated) && isLoading == old(isLoading)
      ensures showAuthModal == old(showAuthModal) && showProfileModal == old(showProfileModal)
    {
      savedConfigs := WithoutId(savedConfigs, id);
    }

    method UpdateConfig(id: string, u: SavedConfigUpdate)
      modifies this
      ensures Valid() == old(Valid())
      ensures savedConfigs == MergedById(old(savedConfigs), id, u)
      ensures user == old(user) && isAuthenticated == old(isAuthenticated) && isLoading == old(isLoading)
      ensures showAuthModal == old(showAuthModal) && showProfileModal == old(showProfileModal)
    {
      savedConfigs := MergedById(savedConfigs, id, u);
    }

    method Logout()
      modifies this
      ensures Valid()
      ensures user == None && !isAuthenticated && savedConfigs == []
      ensures !showAuthModal && !showProfileModal && !isLoading
    {
      user := None;
      isAuthenticated := false;
      savedConfigs := [];
      showAuthModal := false;
      showProfileModal := false;
      isLoading := false;
    }
  }
}
