/** Lease durations and heartbeats (lease/lease.go), and the rounding the SQL
    repositories apply to them. */
module Lease {
  import opened Jobs

  datatype Manager = Manager(leaseDuration: Duration, heartbeat: Duration)

  function New(lease: Duration): Manager {
    var l := if lease <= 0 then 60 * SECOND else lease;
    Manager(l, l / 3)
  }

  /** What the SQL repositories store for a lease: whole seconds, 60 of them when there is not one. */
  function InSeconds(lease: Duration): Duration {
    var seconds := if lease >= 0 then lease / SECOND else -((-lease) / SECOND);
    (if seconds <= 0 then 60 else seconds) * SECOND
  }

  /** A heartbeat interval fits three times into the lease as it stands, and once into
      the lease as the SQL repositories round it. */
  lemma HeartbeatFits(lease: Duration)
    ensures var m := New(lease);
            && m.leaseDuration == (if lease > 0 then lease else 60_000_000_000)
            && 0 <= 3 * m.heartbeat <= m.leaseDuration < 3 * m.heartbeat + 3
            && m.heartbeat <= m.leaseDuration / 3 <= InSeconds(m.leaseDuration)
  {
    var l := New(lease).leaseDuration;
    assert l == SECOND * (l / SECOND) + l % SECOND;
  }

  /** A lease of a second or more loses its fraction of a second; one below becomes a minute. */
  lemma Rounded(lease: Duration)
    ensures InSeconds(lease) % SECOND == 0
    ensures if lease >= SECOND then lease - SECOND < InSeconds(lease) <= lease else InSeconds(lease) == 60_000_000_000
  {
  }

  /** Rounding costs the margin: with a lease of 1.9 s one late heartbeat is too many. */
  lemma RoundingCostsMargin()
    ensures var m := New(1_900_000_000); InSeconds(m.leaseDuration) < 2 * m.heartbeat
  {
  }
}
