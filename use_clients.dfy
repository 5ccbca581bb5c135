/**
 * The client store hook: the ordered client collection with its add,
 * update, delete and lookup operations, the follow-up rules (days without
 * contact, overdue level) and the status filter.
 */
module UseClients {
  import opened Wrappers
  import opened Filtering
  import opened Types

  /** Milliseconds in one day. */
  const MsPerDay: int := 1000 * 60 * 60 * 24

  /** Whole days elapsed since the last contact, rounded down; negative for a future contact. */
  function DaysWithoutContact(c: Client, now: Millis): (days: int)
    ensures days * MsPerDay <= now - c.lastContact < days * MsPerDay + MsPerDay
  {
    (now - c.lastContact) / MsPerDay
  }

  lemma DaysNegativeIffFuture(c: Client, now: Millis)
    ensures DaysWithoutContact(c, now) < 0 <==> now < c.lastContact
    ensures now - c.lastContact < MsPerDay ==> DaysWithoutContact(c, now) <= 0
  {
  }

  /** How urgently a client needs a follow-up. */
  datatype Level = NotOverdue | Warning | Danger

  /** The follow-up classification, with the hook's two thresholds in days. */
  function OverdueLevel(c: Client, now: Millis, warningDays: int, dangerDays: int): Level {
    if !IsActive(c.status) then NotOverdue
    else
      var days := DaysWithoutContact(c, now);
      if days >= dangerDays then Danger
      else if days >= warningDays then Warning
      else NotOverdue
  }

  /** Closed and lost clients are never overdue, however long ago the contact was. */
  lemma ClosedOrLostNeverOverdue(c: Client, now: Millis, warningDays: int, dangerDays: int)
    requires c.status == Fechado || c.status == Perdido
    ensures OverdueLevel(c, now, warningDays, dangerDays) == NotOverdue
  {
  }

  /** For an active client the level is decided by the elapsed days, the danger threshold first. */
  lemma OverdueLevelThresholds(c: Client, now: Millis, warningDays: int, dangerDays: int)
    requires IsActive(c.status)
    ensures var level, days := OverdueLevel(c, now, warningDays, dangerDays), DaysWithoutContact(c, now);
      && (level == Danger <==> days >= dangerDays)
      && (level == Warning <==> warningDays <= days < dangerDays)
      && (level == NotOverdue <==> days < warningDays && days < dangerDays)
  {
  }

  /** With the danger threshold below the warning one, the warning level cannot occur. */
  lemma CrossedThresholdsSkipWarning(c: Client, now: Millis, warningDays: int, dangerDays: int)
    requires dangerDays < warningDays
    ensures OverdueLevel(c, now, warningDays, dangerDays) != Warning
  {
  }

  /** The level only escalates as time passes. */
  lemma OverdueLevelMonotone(c: Client, earlier: Millis, later: Millis, warningDays: int, dangerDays: int)
    requires earlier <= later
    ensures OverdueLevel(c, earlier, warningDays, dangerDays) == Danger ==>
              OverdueLevel(c, later, warningDays, dangerDays) == Danger
    ensures OverdueLevel(c, earlier, warningDays, dangerDays) == Warning ==>
              OverdueLevel(c, later, warningDays, dangerDays) != NotOverdue
  {
  }

  /** The list filter: a single status, or the `'all'` sentinel. */
  datatype StatusFilter = All | Only(status: ClientStatus)

  function FilterByStatus(cs: seq<Client>, f: StatusFilter): (r: seq<Client>)
    ensures f.Only? ==> forall i :: 0 <= i < |r| ==> r[i].status == f.status
    ensures forall i :: 0 <= i < |cs| && (f.All? || cs[i].status == f.status) ==> cs[i] in r
  {
    match f
    case All => cs
    case Only(s) => Select(cs, HasStatus(s))
  }

  /** The filter keeps exactly the matching records, with their multiplicities, in their order. */
  lemma FilterByStatusExact(a: seq<Client>, b: seq<Client>, f: StatusFilter, c: Client)
    ensures FilterByStatus(a + b, f) == FilterByStatus(a, f) + FilterByStatus(b, f)
    ensures multiset(FilterByStatus(a, f))[c] ==
              if f.All? || c.status == f.status then multiset(a)[c] else 0
  {
    if f.Only? {
      SelectAppend(a, b, HasStatus(f.status));
      SelectMultiset(a, HasStatus(f.status), c);
    }
  }

  /** The first record with the given id, if any (`Array.prototype.find`). */
  function Find(cs: seq<Client>, id: string): (r: Option<Client>)
    ensures r.None? <==> forall i :: 0 <= i < |cs| ==> cs[i].id != id
    ensures r.Some? ==> exists k :: 0 <= k < |cs| && cs[k] == r.value && r.value.id == id &&
                                   forall j :: 0 <= j < k ==> cs[j].id != id
  {
    if cs == [] then None
    else if cs[0].id == id then Some(cs[0])
    else
      var r := Find(cs[1..], id);
      assert r.Some? ==> exists k :: 0 < k < |cs| && cs[k] == r.value && r.value.id == id &&
                                     forall j :: 0 <= j < k ==> cs[j].id != id by {
        if r.Some? {
          var k :| 0 <= k < |cs| - 1 && cs[1..][k] == r.value && r.value.id == id &&
                   forall j :: 0 <= j < k ==> cs[1..][j].id != id;
          assert cs[k + 1] == r.value;
          assert forall j :: 0 <= j < k + 1 ==> cs[j].id != id by {
            assert forall j :: 0 < j < k + 1 ==> cs[j] == cs[1..][j - 1];
          }
        }
      }
      r
  }

  /** No two records share an id. */
  ghost predicate UniqueIds(cs: seq<Client>) {
    forall i, j :: 0 <= i < j < |cs| ==> cs[i].id != cs[j].id
  }

  /** The record `addClient` builds: the submitted fields, the supplied id, both timestamps `now`. */
  function NewClient(d: ClientData, id: string, now: Millis): Client {
    Client(id, d.name, d.phone, d.email, d.product, d.status, d.notes, d.lastContact, now, now)
  }

  lemma NewClientKeepsData(d: ClientData, id: string, now: Millis)
    ensures var c := NewClient(d, id, now);
      DataOf(c) == d && c.id == id && c.createdAt == now && c.updatedAt == now
  {
  }

  /** The new record, standing first, is what its id finds; with a fresh id the ids stay unique. */
  lemma AddThenFind(cs: seq<Client>, d: ClientData, id: string, now: Millis)
    ensures Find([NewClient(d, id, now)] + cs, id) == Some(NewClient(d, id, now))
    ensures Find(cs, id).None? && UniqueIds(cs) ==> UniqueIds([NewClient(d, id, now)] + cs)
  {
  }

  /** One record with a partial record spread over it and `updatedAt` refreshed. */
  function Merge(c: Client, p: ClientPatch, now: Millis): Client {
    Client(p.id.GetOr(c.id), p.name.GetOr(c.name), p.phone.GetOr(c.phone),
           p.email.GetOr(c.email), p.product.GetOr(c.product), p.status.GetOr(c.status),
           p.notes.GetOr(c.notes), p.lastContact.GetOr(c.lastContact),
           p.createdAt.GetOr(c.createdAt), now)
  }

  /** Editing through the form replaces the seven form fields and keeps the id and the creation time. */
  lemma MergeFormData(c: Client, d: ClientData, now: Millis)
    ensures var r := Merge(c, PatchOf(d), now);
      DataOf(r) == d && r.id == c.id && r.createdAt == c.createdAt && r.updatedAt == now
  {
  }

  /** A patch that only names a status changes the status and the update time, nothing else. */
  lemma MergeStatusOnly(c: Client, s: ClientStatus, now: Millis)
    ensures var p := ClientPatch(None, None, None, None, None, Some(s), None, None, None, None);
      Merge(c, p, now) == c.(status := s, updatedAt := now)
  {
  }

  /** A supplied `updatedAt` is ignored; the update time is always `now`. */
  lemma MergeIgnoresUpdatedAt(c: Client, p: ClientPatch, now: Millis)
    ensures Merge(c, p, now) == Merge(c, p.(updatedAt := None), now)
    ensures Merge(c, p, now).updatedAt == now
  {
  }

  /** `updateClient`: every record with the id merged, all other records untouched. */
  function Updated(cs: seq<Client>, id: string, p: ClientPatch, now: Millis): (r: seq<Client>)
    ensures |r| == |cs|
  {
    seq(|cs|, i requires 0 <= i < |cs| => if cs[i].id == id then Merge(cs[i], p, now) else cs[i])
  }

  lemma UpdateKeepsOthers(cs: seq<Client>, id: string, p: ClientPatch, now: Millis)
    ensures forall i :: 0 <= i < |cs| && cs[i].id != id ==> Updated(cs, id, p, now)[i] == cs[i]
    ensures forall i :: 0 <= i < |cs| && cs[i].id == id ==> Updated(cs, id, p, now)[i] == Merge(cs[i], p, now)
    ensures Find(cs, id).None? ==> Updated(cs, id, p, now) == cs
  {
  }

  /** An update that leaves the id alone keeps the ids of all records, hence their uniqueness. */
  lemma UpdateKeepsIds(cs: seq<Client>, id: string, p: ClientPatch, now: Millis)
    requires p.id.None?
    ensures forall i :: 0 <= i < |cs| ==> Updated(cs, id, p, now)[i].id == cs[i].id
    ensures UniqueIds(cs) ==> UniqueIds(Updated(cs, id, p, now))
  {
  }

  /** With unique ids, an update of a present id replaces that one record and nothing else. */
  lemma UpdateUniqueChangesOne(cs: seq<Client>, id: string, p: ClientPatch, now: Millis, k: int)
    requires UniqueIds(cs) && 0 <= k < |cs| && cs[k].id == id
    ensures Updated(cs, id, p, now) == cs[k := Merge(cs[k], p, now)]
  {
    UpdateKeepsOthers(cs, id, p, now);
    forall i | 0 <= i < |cs| && i != k ensures cs[i].id != id {
      if i < k {
        assert cs[i].id != cs[k].id;
      } else {
        assert cs[k].id != cs[i].id;
      }
    }
  }

  /** After an update, looking up the id yields the merged record. */
  lemma {:induction false} UpdateThenFind(cs: seq<Client>, id: string, p: ClientPatch, now: Millis)
    requires p.id.None?
    ensures Find(Updated(cs, id, p, now), id) ==
              match Find(cs, id) case None => None case Some(c) => Some(Merge(c, p, now))
  {
    if cs != [] {
      var r := Updated(cs, id, p, now);
      assert r[1..] == Updated(cs[1..], id, p, now);
      if cs[0].id != id {
        UpdateThenFind(cs[1..], id, p, now);
      }
    }
  }

  /** The records whose id differs. */
  function IdIsNot(id: string): Client -> bool {
    (c: Client) => c.id != id
  }

  /** `deleteClient`: the records with another id, in their order. */
  function Without(cs: seq<Client>, id: string): seq<Client> {
    Select(cs, IdIsNot(id))
  }

  /** After a delete no record has the id; every other record survives, in order. */
  lemma DeleteRemovesOnlyId(a: seq<Client>, b: seq<Client>, id: string)
    ensures Find(Without(a, id), id).None?
    ensures forall i :: 0 <= i < |a| && a[i].id != id ==> a[i] in Without(a, id)
    ensures Without(a + b, id) == Without(a, id) + Without(b, id)
  {
    SelectAppend(a, b, IdIsNot(id));
  }

  /** Deleting an unknown id changes nothing. */
  lemma DeleteUnknownIsNoop(cs: seq<Client>, id: string)
    requires Find(cs, id).None?
    ensures Without(cs, id) == cs
  {
    SelectKeepsAll(cs, IdIsNot(id));
  }

  /** With unique ids, deleting a present id removes exactly one record. */
  lemma {:induction false} DeleteExistingRemovesOne(cs: seq<Client>, id: string)
    requires UniqueIds(cs)
    requires Find(cs, id).Some?
    ensures |Without(cs, id)| == |cs| - 1
  {
    if cs[0].id == id {
      assert forall i :: 0 <= i < |cs[1..]| ==> cs[1..][i].id != id by {
        assert forall i :: 0 < i < |cs| ==> cs[i].id != cs[0].id;
      }
      DeleteUnknownIsNoop(cs[1..], id);
    } else {
      DeleteExistingRemovesOne(cs[1..], id);
    }
  }

  /** Deleting keeps ids unique. */
  lemma {:induction false} DeleteKeepsUniqueIds(cs: seq<Client>, id: string)
    requires UniqueIds(cs)
    ensures UniqueIds(Without(cs, id))
  {
    if cs != [] {
      DeleteKeepsUniqueIds(cs[1..], id);
      var rest := Without(cs[1..], id);
      forall j | 0 <= j < |rest| ensures rest[j].id != cs[0].id {
        var k :| 0 <= k < |cs[1..]| && cs[1..][k] == rest[j];
        assert cs[k + 1] == rest[j];
      }
    }
  }

  /**
   * The state of the hook: the client collection, newest first, and the
   * selected status filter, with the two follow-up thresholds fixed when the
   * hook is created.
   */
  class ClientStore {
    var clients: seq<Client>
    var statusFilter: StatusFilter
    const warningDays: int
    const dangerDays: int

    /** A fresh store: no clients, every status shown. */
    constructor (warningDays: int, dangerDays: int)
      ensures clients == [] && statusFilter == All
      ensures this.warningDays == warningDays && this.dangerDays == dangerDays
    {
      this.warningDays := warningDays;
      this.dangerDays := dangerDays;
      clients := [];
      statusFilter := All;
    }

    /** Prepends a new record with id `id`, created and updated at `now`. */
    method AddClient(data: ClientData, id: string, now: Millis)
      modifies this`clients
      ensures clients == [NewClient(data, id, now)] + old(clients)
      ensures Find(clients, id) == Some(NewClient(data, id, now))
      ensures Find(old(clients), id).None? && UniqueIds(old(clients)) ==> UniqueIds(clients)
    {
      AddThenFind(clients, data, id, now);
      clients := [NewClient(data, id, now)] + clients;
    }

    /** Merges `updates` into every record with id `id`, refreshing its update time. */
    method UpdateClient(id: string, updates: ClientPatch, now: Millis)
      modifies this`clients
      ensures clients == Updated(old(clients), id, updates, now)
      ensures Find(old(clients), id).None? ==> clients == old(clients)
      ensures updates.id.None? && UniqueIds(old(clients)) ==> UniqueIds(clients)
    {
      UpdateKeepsOthers(clients, id, updates, now);
      if updates.id.None? {
        UpdateKeepsIds(clients, id, updates, now);
      }
      clients := Updated(clients, id, updates, now);
    }

    /** Removes every record with id `id`. */
    method DeleteClient(id: string)
      modifies this`clients
      ensures clients == Without(old(clients), id)
      ensures Find(clients, id).None?
      ensures Find(old(clients), id).None? ==> clients == old(clients)
      ensures UniqueIds(old(clients)) ==> UniqueIds(clients)
    {
      DeleteRemovesOnlyId(clients, [], id);
      if Find(clients, id).None? {
        DeleteUnknownIsNoop(clients, id);
      }
      if UniqueIds(clients) {
        DeleteKeepsUniqueIds(clients, id);
      }
      clients := Without(clients, id);
    }

    method SetStatusFilter(f: StatusFilter)
      modifies this`statusFilter
      ensures statusFilter == f
    {
      statusFilter := f;
    }

    /** `getClient`: the first record with the id. */
    function GetClient(id: string): Option<Client>
      reads this
    {
      Find(clients, id)
    }

    /** `getOverdueLevel` with this hook's thresholds. */
    function GetOverdueLevel(c: Client, now: Millis): Level {
      OverdueLevel(c, now, warningDays, dangerDays)
    }

    /** `filteredClients`: the clients the selected filter lets through. */
    function FilteredClients(): seq<Client>
      reads this
    {
      FilterByStatus(clients, statusFilter)
    }
  }
}
