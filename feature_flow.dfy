/**
 * What the three feature screens (DM generator, pricing assistant, media
 * kit) share: each checks the monthly gate, loads the `influencer_data`
 * reference table, asks the client for a result, saves one record and
 * bumps one usage counter. What each of those database and network calls
 * does is a parameter.
 */
module FeatureFlow {
  import opened Wrappers
  import opened Types
  import opened Store
  import opened Subscription
  import opened UserData
  import opened ClientAi

  /**
   * One run of a feature's flow: how the gate's reads go, the reference
   * rows (`None` when the query errs, which throws into the catch block),
   * what the proxy replies, and how the save and the increment go.
   */
  datatype FlowIo<T> = FlowIo(
    gate: GateIo,
    reference: Option<seq<InfluencerData>>,
    reply: ProxyReply<T>,
    save: SaveIo,
    increment: IncrementIo)

  /** The gate's verdict and the usage table it leaves behind. */
  function GateFor(db: Database, user: UserId, month: MonthKey, now: int, io: GateIo,
                   usage: UsageTable, k: ActionKind): Gated
    reads db
  {
    Gate(IsUserPro(GetUserProfile(db, user, io.profileReadFails), now), usage, (user, month), io.usage, k)
  }

  /**
   * A free user the gate admits, followed by an increment that reads and
   * writes the row without error: the counter for `k` goes up by one and
   * stays within the monthly limit, and the other two counters keep their
   * values.
   */
  lemma AdmittedUseStaysWithinLimit(table: UsageTable, key: (UserId, MonthKey), gateIo: UsageIo,
                                    incIo: IncrementIo, k: ActionKind)
    requires Gate(false, table, key, gateIo, k).allowed
    requires !incIo.usage.readFails && !incIo.updateFails
    ensures var g := Gate(false, table, key, gateIo, k);
      var t := Increment(g.table, key, incIo, k).table;
      && key in g.table && key in t
      && Count(t[key], k) == Count(g.table[key], k) + 1 <= Limit(k)
      && forall j :: j != k ==> Count(t[key], j) == Count(g.table[key], j)
  {
    var g := Gate(false, table, key, gateIo, k);
    var f := FetchUsage(table, key, gateIo);
    assert f.row.Some? && g.table == f.table;
    var f2 := FetchUsage(g.table, key, incIo.usage);
    assert f2.row == Some(g.table[key]);
  }
}
