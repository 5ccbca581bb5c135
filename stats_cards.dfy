/**
 * The four dashboard tallies: all clients, active ones, closed sales, and
 * active clients without contact for a week or more.
 */
module StatsCards {
  import opened Filtering
  import opened Types
  import opened UseClients
  import opened IndexPage

  /** The dashboard's follow-up limit, fixed at seven days whatever the hook's thresholds. */
  const FollowUpDays: int := 7

  function IsActiveClient(): Client -> bool {
    (c: Client) => IsActive(c.status)
  }

  /** Active and without contact for at least `FollowUpDays` days at `now`. */
  function NeedsFollowUp(now: Millis): Client -> bool {
    (c: Client) => IsActive(c.status) && DaysWithoutContact(c, now) >= FollowUpDays
  }

  function TotalClients(cs: seq<Client>): nat {
    |cs|
  }

  function ActiveClients(cs: seq<Client>): nat {
    |Select(cs, IsActiveClient())|
  }

  function ClosedClients(cs: seq<Client>): nat {
    |Select(cs, HasStatus(Fechado))|
  }

  function OverdueClients(cs: seq<Client>, now: Millis): nat {
    |Select(cs, NeedsFollowUp(now))|
  }

  /** Closed counts exactly the `fechado` records: one per such record, as the page's counts loop finds. */
  lemma ClosedIsStatusCount(cs: seq<Client>)
    ensures ClosedClients(cs) == Tally(cs, Fechado)
  {
    TallyIsFilterSize(cs, Fechado);
  }

  /** Every client is active, closed or lost, and only one of them. */
  lemma ActiveClosedLostPartition(cs: seq<Client>)
    ensures ActiveClients(cs) + ClosedClients(cs) + |FilterByStatus(cs, Only(Perdido))| == TotalClients(cs)
  {
    var inactive := (c: Client) => !IsActive(c.status);
    SelectComplement(cs, IsActiveClient(), inactive);
    SelectDisjoint(cs, HasStatus(Fechado), HasStatus(Perdido), inactive);
  }

  /** A client needing follow-up is active, so the tally never exceeds the active count. */
  lemma OverdueAtMostActive(cs: seq<Client>, now: Millis)
    ensures OverdueClients(cs, now) <= ActiveClients(cs)
    ensures forall i :: 0 <= i < |cs| && !IsActive(cs[i].status) ==> cs[i] !in Select(cs, NeedsFollowUp(now))
  {
    SelectWeaker(cs, NeedsFollowUp(now), IsActiveClient());
  }

  /**
   * The tally agrees with the hook's classification exactly when the hook
   * warns at seven days and its danger threshold is not below that.
   */
  lemma OverdueMatchesHookAtSevenDays(cs: seq<Client>, now: Millis, dangerDays: int)
    requires dangerDays >= FollowUpDays
    ensures OverdueClients(cs, now) ==
              |Select(cs, (c: Client) => OverdueLevel(c, now, FollowUpDays, dangerDays) != NotOverdue)|
  {
    SelectSame(cs, NeedsFollowUp(now), (c: Client) => OverdueLevel(c, now, FollowUpDays, dangerDays) != NotOverdue);
  }

  /** With other hook thresholds the tally can disagree: an active client ten days out of contact. */
  lemma OverdueIgnoresHookThresholds()
    ensures var c := Client("a", "Ana", "", "", "", Novo, "", 0, 0, 0);
      var now := 10 * MsPerDay;
      OverdueClients([c], now) == 1 && OverdueLevel(c, now, 14, 30) == NotOverdue
  {
    var c := Client("a", "Ana", "", "", "", Novo, "", 0, 0, 0);
    var now := 10 * MsPerDay;
    assert DaysWithoutContact(c, now) == 10;
    assert NeedsFollowUp(now)(c);
    assert [c][1..] == [];
    assert Select([c], NeedsFollowUp(now)) == [c] + Select([], NeedsFollowUp(now));
  }
}
