/**
  The hourly per-address limit as an invariant of the store. Both contact handlers insert a record
  only after counting fewer than five records from the same address in the hour before `now`, and
  stamp the new record with `now`; this module states what that guarantees about every stored record.
 */
module RateWindow {
  import opened Base
  import opened ContactSchema

  const HourMs := 3600000
  const MaxPerHour := 5

  /**
    Every record was admitted when at most four earlier records from its address lay in the
    hour before it: counting itself, the records before it in that hour number at most five.
   */
  ghost predicate HourlyBounded(store: seq<Record>) {
    forall i :: 0 <= i < |store| ==>
      RecentSubmissionsCount(store[..i + 1], store[i].ipAddress, HourMs, store[i].timestamp) <= MaxPerHour
  }

  /** Appending a record that the rate-limit check let through keeps the bound. */
  lemma AppendKeepsBound(store: seq<Record>, rec: Record)
    requires HourlyBounded(store)
    requires RecentSubmissionsCount(store, rec.ipAddress, HourMs, rec.timestamp) < MaxPerHour
    ensures HourlyBounded(store + [rec])
  {
    forall i | 0 <= i < |store + [rec]|
      ensures var s := store + [rec];
        RecentSubmissionsCount(s[..i + 1], s[i].ipAddress, HourMs, s[i].timestamp) <= MaxPerHour
    {
      EntryKept(store, rec, i);
    }
  }

  /** The bound at one position of the extended store: kept from before, or given by the check. */
  lemma EntryKept(store: seq<Record>, rec: Record, i: nat)
    requires HourlyBounded(store) && i <= |store|
    requires RecentSubmissionsCount(store, rec.ipAddress, HourMs, rec.timestamp) < MaxPerHour
    ensures var s := store + [rec];
      RecentSubmissionsCount(s[..i + 1], s[i].ipAddress, HourMs, s[i].timestamp) <= MaxPerHour
  {
    var s := store + [rec];
    if i < |store| {
      assert s[..i + 1] == store[..i + 1];
      assert s[i] == store[i];
    } else {
      assert s[..i + 1] == s;
      RecentCountAppend(store, rec, rec.ipAddress, HourMs, rec.timestamp);
    }
  }

  lemma PrefixKeepsBound(store: seq<Record>, n: nat)
    requires HourlyBounded(store) && n <= |store|
    ensures HourlyBounded(store[..n])
  {
    forall i | 0 <= i < n
      ensures RecentSubmissionsCount(store[..n][..i + 1], store[i].ipAddress, HourMs, store[i].timestamp) <= MaxPerHour
    {
      assert store[..n][..i + 1] == store[..i + 1];
    }
  }

  /** The record lies in the closed hour that ends at `t` and comes from `ip`. */
  predicate InHourEnding(r: Record, ip: string, t: int) {
    r.ipAddress == ip && t - HourMs <= r.timestamp <= t
  }

  function HourCount(store: seq<Record>, ip: string, t: int): nat {
    CountWhere(store, (r: Record) => InHourEnding(r, ip, t))
  }

  /** Under the invariant no address has more than five stored submissions in any closed hour. */
  lemma {:induction false} AnyHourAtMostFive(store: seq<Record>, ip: string, t: int)
    requires HourlyBounded(store)
    ensures HourCount(store, ip, t) <= MaxPerHour
    decreases |store|
  {
    if |store| > 0 {
      var n := |store| - 1;
      var last := store[n];
      if InHourEnding(last, ip, t) {
        assert store[..n + 1] == store;
        CountWhereMono(store, (r: Record) => InHourEnding(r, ip, t), (r: Record) => IsRecentFrom(r, ip, last.timestamp - HourMs));
      } else {
        PrefixKeepsBound(store, n);
        AnyHourAtMostFive(store[..n], ip, t);
      }
    }
  }
}
