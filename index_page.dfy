/**
 * The main page: per-status counts, the display order of the filtered
 * list, and the page's form and delete-confirmation state.
 */
module IndexPage {
  import opened Wrappers
  import opened Filtering
  import opened Types
  import opened UseClients

  /** The comparator's rank of a level: danger first, then warning, then none. */
  function LevelRank(l: Level): nat {
    match l
    case Danger => 0
    case Warning => 1
    case NotOverdue => 2
  }

  /** What the comparator looks at: the level rank, then the last-contact time. */
  datatype SortKey = SortKey(rank: int, date: Millis)

  /** The comparator returns at most zero: `a` may stand before `b`. */
  predicate KeyLe(a: SortKey, b: SortKey) {
    a.rank < b.rank || (a.rank == b.rank && a.date <= b.date)
  }

  /** Every element's key is at most the key of every later element. */
  ghost predicate SortedBy<T>(s: seq<T>, key: T -> SortKey) {
    forall i, j :: 0 <= i < j < |s| ==> KeyLe(key(s[i]), key(s[j]))
  }

  /** The elements whose key is `k`. */
  function HasKey<T>(key: T -> SortKey, k: SortKey): T -> bool {
    x => key(x) == k
  }

  /** Puts `x` in front of the first element whose key is not below its own. */
  function Insert<T>(x: T, s: seq<T>, key: T -> SortKey): seq<T> {
    if s == [] || KeyLe(key(x), key(s[0])) then [x] + s
    else [s[0]] + Insert(x, s[1..], key)
  }

  /** A stable sort by key (insertion sort from the back). */
  function SortBy<T>(s: seq<T>, key: T -> SortKey): seq<T> {
    if s == [] then [] else Insert(s[0], SortBy(s[1..], key), key)
  }

  lemma {:induction false} InsertMultiset<T>(x: T, s: seq<T>, key: T -> SortKey)
    ensures multiset(Insert(x, s, key)) == multiset{x} + multiset(s)
  {
    if s != [] && !KeyLe(key(x), key(s[0])) {
      InsertMultiset(x, s[1..], key);
      assert s == [s[0]] + s[1..];
    }
  }

  /** The sort is a permutation. */
  lemma {:induction false} SortByMultiset<T>(s: seq<T>, key: T -> SortKey)
    ensures multiset(SortBy(s, key)) == multiset(s)
  {
    if s != [] {
      SortByMultiset(s[1..], key);
      InsertMultiset(s[0], SortBy(s[1..], key), key);
      assert s == [s[0]] + s[1..];
    }
  }

  lemma {:induction false} InsertSorted<T>(x: T, s: seq<T>, key: T -> SortKey)
    requires SortedBy(s, key)
    ensures SortedBy(Insert(x, s, key), key)
  {
    if s != [] && !KeyLe(key(x), key(s[0])) {
      var t := Insert(x, s[1..], key);
      InsertSorted(x, s[1..], key);
      InsertMultiset(x, s[1..], key);
      forall j | 0 <= j < |t| ensures KeyLe(key(s[0]), key(t[j])) {
        assert t[j] in multiset(t);
        if t[j] != x {
          assert t[j] in s[1..];
        }
      }
    }
  }

  /** The sort orders by key. */
  lemma {:induction false} SortBySorted<T>(s: seq<T>, key: T -> SortKey)
    ensures SortedBy(SortBy(s, key), key)
  {
    if s != [] {
      SortBySorted(s[1..], key);
      InsertSorted(s[0], SortBy(s[1..], key), key);
    }
  }

  lemma {:induction false} InsertStable<T>(x: T, s: seq<T>, key: T -> SortKey, k: SortKey)
    ensures Select(Insert(x, s, key), HasKey(key, k)) == Select([x] + s, HasKey(key, k))
  {
    if s != [] && !KeyLe(key(x), key(s[0])) {
      var p := HasKey(key, k);
      var h, rest := s[0], s[1..];
      var ins := Insert(x, rest, key);
      assert Insert(x, s, key) == [h] + ins;
      assert s == [h] + rest;
      InsertStable(x, rest, key, k);
      SelectCons(h, ins, p);
      SelectCons(x, rest, p);
      SelectCons(x, s, p);
      SelectCons(h, rest, p);
      var ex, eh := if p(x) then [x] else [], if p(h) then [h] else [];
      assert key(x) != key(h);
      assert ex == [] || eh == [];
      var z := Select(rest, p);
      if ex == [] {
        assert ex + z == z && ex + (eh + z) == eh + z;
      } else {
        assert eh + z == z && eh + (ex + z) == ex + z;
      }
    }
  }

  /** The sort is stable: the elements of each key keep their relative order. */
  lemma {:induction false} SortByStable<T>(s: seq<T>, key: T -> SortKey, k: SortKey)
    ensures Select(SortBy(s, key), HasKey(key, k)) == Select(s, HasKey(key, k))
  {
    if s != [] {
      SortByStable(s[1..], key, k);
      InsertStable(s[0], SortBy(s[1..], key), key, k);
      assert ([s[0]] + SortBy(s[1..], key))[1..] == SortBy(s[1..], key);
    }
  }

  /** Sorting a sorted sequence changes nothing. */
  lemma {:induction false} SortBySortedIsIdentity<T>(s: seq<T>, key: T -> SortKey)
    requires SortedBy(s, key)
    ensures SortBy(s, key) == s
  {
    if s != [] {
      SortBySortedIsIdentity(s[1..], key);
      assert [s[0]] + s[1..] == s;
    }
  }

  lemma SelectOwnKeyNonEmpty<T>(s: seq<T>, key: T -> SortKey)
    requires s != []
    ensures Select(s, HasKey(key, key(s[0]))) != []
  {
  }

  /** A member of another sorted sequence's selection has a key no smaller than that sequence's head. */
  lemma HeadKeyIsLeast<T>(t: seq<T>, x: T, key: T -> SortKey)
    requires SortedBy(t, key) && t != []
    requires x in Select(t, HasKey(key, key(x)))
    ensures KeyLe(key(t[0]), key(x))
  {
    var r := Select(t, HasKey(key, key(x)));
    var i :| 0 <= i < |r| && r[i] == x;
    var j :| 0 <= j < |t| && t[j] == x;
    if j > 0 {
      assert KeyLe(key(t[0]), key(t[j]));
    }
  }

  /** Sorted sequences with the same selection for every key begin with the same element. */
  lemma SortedStableSameHead<T>(t: seq<T>, u: seq<T>, key: T -> SortKey)
    requires SortedBy(t, key) && SortedBy(u, key) && t != [] && u != []
    requires forall k :: Select(t, HasKey(key, k)) == Select(u, HasKey(key, k))
    ensures t[0] == u[0]
  {
    var a, b := t[0], u[0];
    SelectOwnKeyNonEmpty(t, key);
    SelectOwnKeyNonEmpty(u, key);
    assert Select(u, HasKey(key, key(b))) == [b] + Select(u[1..], HasKey(key, key(b)));
    assert Select(t, HasKey(key, key(a))) == [a] + Select(t[1..], HasKey(key, key(a)));
    HeadKeyIsLeast(t, b, key);
    HeadKeyIsLeast(u, a, key);
    var k0 := key(a);
    assert key(b) == k0;
    assert Select(t, HasKey(key, k0))[0] == a;
    assert Select(u, HasKey(key, k0))[0] == b;
  }

  /** After dropping a common head, the tails still agree key by key. */
  lemma StableTailsAgree<T>(t: seq<T>, u: seq<T>, key: T -> SortKey)
    requires t != [] && u != [] && t[0] == u[0]
    requires forall k :: Select(t, HasKey(key, k)) == Select(u, HasKey(key, k))
    ensures forall k :: Select(t[1..], HasKey(key, k)) == Select(u[1..], HasKey(key, k))
  {
    forall k ensures Select(t[1..], HasKey(key, k)) == Select(u[1..], HasKey(key, k)) {
      SelectDropCommonHead(t, u, HasKey(key, k));
    }
  }

  /**
   * Two sorted sequences with the same subsequence for every key are equal:
   * a sorted, stable arrangement is unique.
   */
  lemma {:induction false} SortedStableUnique<T>(t: seq<T>, u: seq<T>, key: T -> SortKey)
    requires SortedBy(t, key) && SortedBy(u, key)
    requires forall k :: Select(t, HasKey(key, k)) == Select(u, HasKey(key, k))
    ensures t == u
    decreases |t|
  {
    if t != [] {
      SelectOwnKeyNonEmpty(t, key);
    }
    if u != [] {
      SelectOwnKeyNonEmpty(u, key);
    }
    if t != [] && u != [] {
      SortedStableSameHead(t, u, key);
      StableTailsAgree(t, u, key);
      SortedStableUnique(t[1..], u[1..], key);
      assert t == [t[0]] + t[1..] && u == [u[0]] + u[1..];
    }
  }

  /** `SortBy` is the only sorted, stable rearrangement: what any stable sort with this comparator returns. */
  lemma SortByIsTheStableSort<T>(s: seq<T>, t: seq<T>, key: T -> SortKey)
    requires SortedBy(t, key)
    requires forall k :: Select(t, HasKey(key, k)) == Select(s, HasKey(key, k))
    ensures t == SortBy(s, key)
  {
    SortBySorted(s, key);
    forall k ensures Select(t, HasKey(key, k)) == Select(SortBy(s, key), HasKey(key, k)) {
      SortByStable(s, key, k);
    }
    SortedStableUnique(t, SortBy(s, key), key);
  }

  /** The display key of a client: its overdue rank, then its last contact, oldest first. */
  function DisplayKey(now: Millis, warningDays: int, dangerDays: int): Client -> SortKey {
    (c: Client) => SortKey(LevelRank(OverdueLevel(c, now, warningDays, dangerDays)), c.lastContact)
  }

  /** `sortedClients`: a sorted copy of the filtered list. */
  function SortForDisplay(cs: seq<Client>, now: Millis, warningDays: int, dangerDays: int): (r: seq<Client>)
    ensures multiset(r) == multiset(cs)
    ensures SortedBy(r, DisplayKey(now, warningDays, dangerDays))
    ensures forall k :: Select(r, HasKey(DisplayKey(now, warningDays, dangerDays), k)) ==
                        Select(cs, HasKey(DisplayKey(now, warningDays, dangerDays), k))
  {
    var key := DisplayKey(now, warningDays, dangerDays);
    SortByMultiset(cs, key);
    SortBySorted(cs, key);
    forall k ensures Select(SortBy(cs, key), HasKey(key, k)) == Select(cs, HasKey(key, k)) {
      SortByStable(cs, key, k);
    }
    SortBy(cs, key)
  }

  /** In display order danger precedes warning precedes none, and equal levels run oldest contact first. */
  lemma DisplayOrder(cs: seq<Client>, now: Millis, warningDays: int, dangerDays: int, i: int, j: int)
    requires 0 <= i < j < |SortForDisplay(cs, now, warningDays, dangerDays)|
    ensures var r := SortForDisplay(cs, now, warningDays, dangerDays);
      var li, lj := OverdueLevel(r[i], now, warningDays, dangerDays), OverdueLevel(r[j], now, warningDays, dangerDays);
      && (li == Danger || lj != Danger)
      && (lj == NotOverdue || li != NotOverdue)
      && (li == lj ==> r[i].lastContact <= r[j].lastContact)
  {
    var r := SortForDisplay(cs, now, warningDays, dangerDays);
    assert KeyLe(DisplayKey(now, warningDays, dangerDays)(r[i]), DisplayKey(now, warningDays, dangerDays)(r[j]));
  }

  /** Sorting the display list again leaves it as it is. */
  lemma SortForDisplayIdempotent(cs: seq<Client>, now: Millis, warningDays: int, dangerDays: int)
    ensures var r := SortForDisplay(cs, now, warningDays, dangerDays);
      SortForDisplay(r, now, warningDays, dangerDays) == r
  {
    var r := SortForDisplay(cs, now, warningDays, dangerDays);
    SortBySortedIsIdentity(r, DisplayKey(now, warningDays, dangerDays));
  }

  /** Twenty days without contact is danger, two days is none, and the danger client is listed first. */
  lemma SortScenario(now: Millis)
    ensures var c1 := Client("1", "A", "", "", "", Aguardando, "", now - 20 * MsPerDay, 0, 0);
      var c2 := Client("2", "B", "", "", "", Novo, "", now - 2 * MsPerDay, 0, 0);
      && OverdueLevel(c1, now, 7, 14) == Danger
      && OverdueLevel(c2, now, 7, 14) == NotOverdue
      && SortForDisplay([c1, c2], now, 7, 14) == [c1, c2]
  {
    var c1 := Client("1", "A", "", "", "", Aguardando, "", now - 20 * MsPerDay, 0, 0);
    var c2 := Client("2", "B", "", "", "", Novo, "", now - 2 * MsPerDay, 0, 0);
    assert OverdueLevel(c1, now, 7, 14) == Danger;
    assert OverdueLevel(c2, now, 7, 14) == NotOverdue;
    SortBySortedIsIdentity([c1, c2], DisplayKey(now, 7, 14));
  }

  /** The six keys of the counts record. */
  const CountKeys: set<StatusFilter> :=
    {All, Only(Novo), Only(EmContato), Only(Aguardando), Only(Fechado), Only(Perdido)}

  /** Every status has its key. */
  lemma CountKeysCoverStatuses()
    ensures forall s :: Only(s) in CountKeys
  {
    forall s ensures Only(s) in CountKeys {
      match s
      case Novo =>
      case EmContato =>
      case Aguardando =>
      case Fechado =>
      case Perdido =>
    }
  }

  /** The number of clients in `cs` with status `s`, counted from the back as the loop does from the front. */
  function Tally(cs: seq<Client>, s: ClientStatus): nat {
    if cs == [] then 0
    else Tally(cs[..|cs| - 1], s) + if cs[|cs| - 1].status == s then 1 else 0
  }

  /** The tally is the size of the status filter. */
  lemma {:induction false} TallyIsFilterSize(cs: seq<Client>, s: ClientStatus)
    ensures Tally(cs, s) == |FilterByStatus(cs, Only(s))|
  {
    if cs != [] {
      var init, last := cs[..|cs| - 1], cs[|cs| - 1];
      TallyIsFilterSize(init, s);
      assert cs == init + [last];
      FilterByStatusExact(init, [last], Only(s), last);
      assert [last][1..] == [];
    }
  }

  /** `clientCounts`: `all` is the list length, each status starts at zero and is bumped once per client. */
  method ClientCounts(clients: seq<Client>) returns (counts: map<StatusFilter, nat>)
    ensures counts.Keys == CountKeys
    ensures counts[All] == |clients|
    ensures forall s :: Only(s) in counts
    ensures forall s :: counts[Only(s)] == |FilterByStatus(clients, Only(s))|
  {
    counts := map[All := |clients|, Only(Novo) := 0, Only(EmContato) := 0,
                  Only(Aguardando) := 0, Only(Fechado) := 0, Only(Perdido) := 0];
    CountKeysCoverStatuses();
    var i := 0;
    while i < |clients|
      invariant 0 <= i <= |clients|
      invariant counts.Keys == CountKeys
      invariant counts[All] == |clients|
      invariant forall s :: counts[Only(s)] == Tally(clients[..i], s)
    {
      var s := clients[i].status;
      assert clients[..i + 1][..i] == clients[..i];
      counts := counts[Only(s) := counts[Only(s)] + 1];
      i := i + 1;
    }
    assert clients[..i] == clients;
    forall s ensures counts[Only(s)] == |FilterByStatus(clients, Only(s))| {
      TallyIsFilterSize(clients, s);
    }
  }

  /** The five tallies add up to the length. */
  lemma {:induction false} TalliesSumToLength(cs: seq<Client>)
    ensures Tally(cs, Novo) + Tally(cs, EmContato) + Tally(cs, Aguardando)
          + Tally(cs, Fechado) + Tally(cs, Perdido) == |cs|
  {
    if cs != [] {
      TalliesSumToLength(cs[..|cs| - 1]);
    }
  }

  /** The five status counts add up to `all`. */
  lemma StatusCountsSumToAll(cs: seq<Client>)
    ensures |FilterByStatus(cs, Only(Novo))| + |FilterByStatus(cs, Only(EmContato))|
          + |FilterByStatus(cs, Only(Aguardando))| + |FilterByStatus(cs, Only(Fechado))|
          + |FilterByStatus(cs, Only(Perdido))| == |cs|
  {
    TalliesSumToLength(cs);
    TallyIsFilterSize(cs, Novo);
    TallyIsFilterSize(cs, EmContato);
    TallyIsFilterSize(cs, Aguardando);
    TallyIsFilterSize(cs, Fechado);
    TallyIsFilterSize(cs, Perdido);
  }

  /**
   * The page: the client store it owns, whether the form is open, the
   * client being edited and the client awaiting delete confirmation.
   */
  class Page {
    const store: ClientStore
    var isFormOpen: bool
    var editingClient: Option<Client>
    var deletingClient: Option<Client>

    /** The page's hook warns at 7 days and raises danger at 14. */
    constructor ()
      ensures fresh(store)
      ensures store.clients == [] && store.statusFilter == All
      ensures store.warningDays == 7 && store.dangerDays == 14
      ensures !isFormOpen && editingClient == None && deletingClient == None
    {
      store := new ClientStore(7, 14);
      isFormOpen := false;
      editingClient := None;
      deletingClient := None;
    }

    /** The list as shown: the filtered clients in display order at `now`. */
    function SortedClients(now: Millis): seq<Client>
      reads this, store
    {
      SortForDisplay(store.FilteredClients(), now, store.warningDays, store.dangerDays)
    }

    /** Opens an empty form. */
    method HandleAddClient()
      modifies this`editingClient, this`isFormOpen
      ensures editingClient == None && isFormOpen
    {
      editingClient := None;
      isFormOpen := true;
    }

    /** Opens the form on `client`. */
    method HandleEditClient(client: Client)
      modifies this`editingClient, this`isFormOpen
      ensures editingClient == Some(client) && isFormOpen
    {
      editingClient := Some(client);
      isFormOpen := true;
    }

    /** Asks for confirmation to delete the client with `id`, if there is one; otherwise nothing happens. */
    method HandleDeleteClick(id: string)
      modifies this`deletingClient
      ensures Find(store.clients, id).Some? ==> deletingClient == Find(store.clients, id)
      ensures Find(store.clients, id).None? ==> deletingClient == old(deletingClient)
    {
      var client := store.GetClient(id);
      if client.Some? {
        deletingClient := client;
      }
    }

    /** Deletes the client awaiting confirmation, then clears it; nothing pending means nothing happens. */
    method HandleConfirmDelete()
      modifies this`deletingClient, store`clients
      ensures deletingClient == None
      ensures store.clients ==
                match old(deletingClient)
                case Some(c) => Without(old(store.clients), c.id)
                case None => old(store.clients)
    {
      if deletingClient.Some? {
        store.DeleteClient(deletingClient.value.id);
        deletingClient := None;
      }
    }

    /** Dismisses the delete confirmation. */
    method HandleCancelDelete()
      modifies this`deletingClient
      ensures deletingClient == None
    {
      deletingClient := None;
    }

    /** Saves the form: an update of the client being edited, else an add; then the form closes. */
    method HandleFormSubmit(data: ClientData, newId: string, now: Millis)
      modifies this`isFormOpen, this`editingClient, store`clients
      ensures store.clients ==
                match old(editingClient)
                case Some(c) => Updated(old(store.clients), c.id, PatchOf(data), now)
                case None => [NewClient(data, newId, now)] + old(store.clients)
      ensures !isFormOpen && editingClient == None
    {
      if editingClient.Some? {
        store.UpdateClient(editingClient.value.id, PatchOf(data), now);
      } else {
        store.AddClient(data, newId, now);
      }
      isFormOpen := false;
      editingClient := None;
    }

    /** Closes the form without saving. */
    method HandleFormClose()
      modifies this`isFormOpen, this`editingClient
      ensures !isFormOpen && editingClient == None
    {
      isFormOpen := false;
      editingClient := None;
    }

    /** Selects the status filter. */
    method HandleFilterChange(f: StatusFilter)
      modifies store`statusFilter
      ensures store.statusFilter == f
    {
      store.SetStatusFilter(f);
    }
  }
}
