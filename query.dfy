/**
 * The dashboard of app.py: the WHERE clause it assembles from the owner and
 * the optional channel and status filters, the LEFT JOIN of campaigns with
 * metric rows summed per campaign (`COALESCE(SUM(...), 0)`), the
 * `ORDER BY c.created_at DESC`, and the ROI and budget-usage figures the
 * handler attaches to each row.
 */
module Query {
  import opened Tables
  import opened Metrics

  // ---------------------------------------------------------------- WHERE

  /** One `AND`-ed condition of the dashboard query, with its parameter. */
  datatype Condition = OwnerIs(userId: nat) | ChannelIs(channel: string) | StatusIs(status: string)

  predicate Satisfies(c: Campaign, cond: Condition) {
    match cond
    case OwnerIs(u) => c.userId == u
    case ChannelIs(ch) => c.channel == ch
    case StatusIs(st) => c.status == st
  }

  predicate SatisfiesAll(c: Campaign, conds: seq<Condition>) {
    forall k :: 0 <= k < |conds| ==> Satisfies(c, conds[k])
  }

  /** The conditions the handler appends: the owner, then each filter that is non-empty. */
  function Conditions(userId: nat, filterChannel: string, filterStatus: string): (conds: seq<Condition>)
    ensures |conds| >= 1 && conds[0] == OwnerIs(userId)
  {
    [OwnerIs(userId)] +
    (if filterChannel != "" then [ChannelIs(filterChannel)] else []) +
    (if filterStatus != "" then [StatusIs(filterStatus)] else [])
  }

  /** A row passes the owner and the non-empty filters. */
  predicate Shown(c: Campaign, userId: nat, filterChannel: string, filterStatus: string) {
    c.userId == userId &&
    (filterChannel != "" ==> c.channel == filterChannel) &&
    (filterStatus != "" ==> c.status == filterStatus)
  }

  /** A row passes the assembled WHERE clause exactly when it is the caller's and matches each given filter. */
  lemma ConditionsMeaning(c: Campaign, userId: nat, filterChannel: string, filterStatus: string)
    ensures SatisfiesAll(c, Conditions(userId, filterChannel, filterStatus)) <==>
      Shown(c, userId, filterChannel, filterStatus)
  {
    var conds := Conditions(userId, filterChannel, filterStatus);
    if filterChannel != "" {
      assert conds[1] == ChannelIs(filterChannel);
    }
    if filterStatus != "" {
      assert conds[|conds| - 1] == StatusIs(filterStatus);
    }
  }

  /** The rows of `campaigns` that pass the WHERE clause, in table order. */
  function Select(cs: seq<Campaign>, conds: seq<Condition>): (r: seq<Campaign>)
    ensures forall c :: c in r <==> c in cs && SatisfiesAll(c, conds)
    ensures multiset(r) <= multiset(cs)
  {
    if cs == [] then []
    else
      assert cs == [cs[0]] + cs[1..];
      (if SatisfiesAll(cs[0], conds) then [cs[0]] else []) + Select(cs[1..], conds)
  }

  /** Filtering a table with unique ids keeps them unique. */
  lemma {:induction false} SelectUnique(cs: seq<Campaign>, conds: seq<Condition>)
    requires UniqueIds(cs)
    ensures UniqueIds(Select(cs, conds))
  {
    if cs != [] {
      TailUnique(cs);
      SelectUnique(cs[1..], conds);
      if SatisfiesAll(cs[0], conds) {
        PrependUnique(cs[0], Select(cs[1..], conds));
      }
    }
  }

  // ------------------------------------------------------------- LEFT JOIN

  /** The four sums the query selects for one campaign. */
  datatype Totals = Totals(spend: real, impressions: int, clicks: int, conversions: int)

  const NoTotals := Totals(0.0, 0, 0, 0)

  /** What one metric row adds to its campaign's sums. */
  function RowTotals(m: MetricRow): Totals {
    Totals(m.spend, m.impressions, m.clicks, m.conversions)
  }

  function AddTotals(a: Totals, b: Totals): Totals {
    Totals(a.spend + b.spend, a.impressions + b.impressions, a.clicks + b.clicks, a.conversions + b.conversions)
  }

  /**
   * `COALESCE(SUM(m.x), 0)` over the rows `m` with `m.campaign_id = c.id`:
   * every row whose campaign id matches contributes once; a campaign with
   * no rows gets all zeros.
   */
  function TotalsFor(ms: seq<MetricRow>, campaignId: nat): (t: Totals)
    ensures (forall i :: 0 <= i < |ms| ==> ms[i].campaignId != campaignId) ==> t == NoTotals
  {
    if ms == [] then NoTotals
    else
      var rest := TotalsFor(ms[1..], campaignId);
      if ms[0].campaignId == campaignId then AddTotals(RowTotals(ms[0]), rest) else rest
  }

  /**
   * Appending a metric row adds its values to its own campaign's sums
   * (entries for the same date are summed, not replaced) and leaves every
   * other campaign's sums as they were.
   */
  lemma {:induction false} TotalsAppend(ms: seq<MetricRow>, m: MetricRow, campaignId: nat)
    ensures TotalsFor(ms + [m], campaignId) ==
      if m.campaignId == campaignId then AddTotals(TotalsFor(ms, campaignId), RowTotals(m))
      else TotalsFor(ms, campaignId)
  {
    if ms == [] {
      assert [m][1..] == [];
      assert TotalsFor([m][1..], campaignId) == NoTotals;
    } else {
      var s := ms + [m];
      assert s[0] == ms[0];
      assert s[1..] == ms[1..] + [m];
      TotalsAppend(ms[1..], m, campaignId);
    }
  }

  /** `TotalsAppend` for the row's own campaign and for all the others at once. */
  lemma AppendTotalsFrame(ms: seq<MetricRow>, m: MetricRow)
    ensures TotalsFor(ms + [m], m.campaignId) == AddTotals(TotalsFor(ms, m.campaignId), RowTotals(m))
    ensures forall other :: other != m.campaignId ==> TotalsFor(ms + [m], other) == TotalsFor(ms, other)
  {
    TotalsAppend(ms, m, m.campaignId);
    forall other | other != m.campaignId
      ensures TotalsFor(ms + [m], other) == TotalsFor(ms, other)
    {
      TotalsAppend(ms, m, other);
    }
  }

  // -------------------------------------------------------------- ORDER BY

  /** Non-increasing `created_at`. */
  predicate NewestFirst(cs: seq<Campaign>) {
    forall i, j :: 0 <= i < j < |cs| ==> cs[i].createdAt >= cs[j].createdAt
  }

  /** Place `c` before the first row that is not newer than it. */
  function InsertNewestFirst(c: Campaign, s: seq<Campaign>): (r: seq<Campaign>)
    requires NewestFirst(s)
    ensures forall x :: x in r <==> x == c || x in s
    ensures NewestFirst(r)
  {
    if s == [] || s[0].createdAt <= c.createdAt then [c] + s
    else
      var rest := InsertNewestFirst(c, s[1..]);
      assert forall x :: x in s[1..] ==> x.createdAt <= s[0].createdAt by {
        forall x | x in s[1..] ensures x.createdAt <= s[0].createdAt {
          var j :| 0 <= j < |s[1..]| && s[1..][j] == x;
          assert s[j + 1] == x;
        }
      }
      assert s == [s[0]] + s[1..];
      [s[0]] + rest
  }

  lemma {:induction false} InsertPermutes(c: Campaign, s: seq<Campaign>)
    requires NewestFirst(s)
    ensures multiset(InsertNewestFirst(c, s)) == multiset(s) + multiset{c}
  {
    if !(s == [] || s[0].createdAt <= c.createdAt) {
      InsertPermutes(c, s[1..]);
      assert s == [s[0]] + s[1..];
    }
  }

  lemma {:induction false} InsertUnique(c: Campaign, s: seq<Campaign>)
    requires NewestFirst(s) && UniqueIds(s) && forall x :: x in s ==> x.id != c.id
    ensures UniqueIds(InsertNewestFirst(c, s))
  {
    if s == [] || s[0].createdAt <= c.createdAt {
      PrependUnique(c, s);
    } else {
      TailUnique(s);
      InsertUnique(c, s[1..]);
      PrependUnique(s[0], InsertNewestFirst(c, s[1..]));
    }
  }

  /**
   * One order `ORDER BY c.created_at DESC` may return. The engine leaves
   * the order of equal timestamps open; this one keeps table order for them.
   */
  function SortNewestFirst(cs: seq<Campaign>): (r: seq<Campaign>)
    ensures forall x :: x in r <==> x in cs
    ensures NewestFirst(r)
  {
    if cs == [] then []
    else
      assert cs == [cs[0]] + cs[1..];
      InsertNewestFirst(cs[0], SortNewestFirst(cs[1..]))
  }

  /** Sorting reorders the rows and only reorders them. */
  lemma {:induction false} SortPermutes(cs: seq<Campaign>)
    ensures multiset(SortNewestFirst(cs)) == multiset(cs)
  {
    if cs != [] {
      SortPermutes(cs[1..]);
      InsertPermutes(cs[0], SortNewestFirst(cs[1..]));
      assert cs == [cs[0]] + cs[1..];
    }
  }

  /** Sorting a table with unique ids keeps them unique. */
  lemma {:induction false} SortUnique(cs: seq<Campaign>)
    requires UniqueIds(cs)
    ensures UniqueIds(SortNewestFirst(cs))
  {
    if cs != [] {
      TailUnique(cs);
      SortUnique(cs[1..]);
      InsertUnique(cs[0], SortNewestFirst(cs[1..]));
    }
  }

  // ----------------------------------------------------------- the query

  /** One row of the query: `c.*` with the four sums. */
  datatype QueryRow = QueryRow(campaign: Campaign, totals: Totals)

  function CampaignsOf(rows: seq<QueryRow>): (cs: seq<Campaign>)
    ensures |cs| == |rows| && forall i :: 0 <= i < |rows| ==> cs[i] == rows[i].campaign
  {
    seq(|rows|, i requires 0 <= i < |rows| => rows[i].campaign)
  }

  /**
   * The dashboard query: the campaigns passing `conds`, joined with the
   * sums of their metric rows, newest first.
   */
  function QueryRows(cs: seq<Campaign>, ms: seq<MetricRow>, conds: seq<Condition>): (rows: seq<QueryRow>)
    ensures CampaignsOf(rows) == SortNewestFirst(Select(cs, conds))
    ensures forall i :: 0 <= i < |rows| ==> rows[i].totals == TotalsFor(ms, rows[i].campaign.id)
  {
    var sorted := SortNewestFirst(Select(cs, conds));
    var rows := seq(|sorted|, i requires 0 <= i < |sorted| => QueryRow(sorted[i], TotalsFor(ms, sorted[i].id)));
    assert CampaignsOf(rows) == sorted;
    rows
  }

  /**
   * The query returns exactly the campaigns that pass the WHERE clause,
   * each once (as many times as the table holds it, and the table holds
   * each id once), newest first, each with the sums of its own metric rows.
   */
  lemma QueryRowsSpec(cs: seq<Campaign>, ms: seq<MetricRow>, conds: seq<Condition>)
    ensures var rows := QueryRows(cs, ms, conds);
      && (forall c :: c in CampaignsOf(rows) <==> c in cs && SatisfiesAll(c, conds))
      && multiset(CampaignsOf(rows)) == multiset(Select(cs, conds))
      && (UniqueIds(cs) ==> UniqueIds(CampaignsOf(rows)))
      && NewestFirst(CampaignsOf(rows))
  {
    SortPermutes(Select(cs, conds));
    if UniqueIds(cs) {
      SelectUnique(cs, conds);
      SortUnique(Select(cs, conds));
    }
  }

  // ---------------------------------------------------- figures per row

  /** The conversion value the dashboard hard-codes. */
  const DashboardConversionValue: int := 50

  /** The dashboard's ROI: 0 unless both spend and conversions are positive. */
  function DashboardRoi(t: Totals): (roi: real)
    ensures !(t.spend > 0.0 && t.conversions > 0) ==> roi == 0.0
    ensures t.spend > 0.0 && t.conversions > 0 ==>
      IsCents(roi) &&
      -0.005 <= roi - ((t.conversions * DashboardConversionValue) as real - t.spend) / t.spend * 100.0 <= 0.005
  {
    if t.spend > 0.0 && t.conversions > 0 then
      Round2(((t.conversions * DashboardConversionValue) as real - t.spend) / t.spend * 100.0)
    else 0.0
  }

  /** The dashboard's budget usage: 0 unless the budget is positive. */
  function DashboardBudgetUsed(budget: real, spend: real): (used: real)
    ensures budget <= 0.0 ==> used == 0.0
    ensures budget > 0.0 ==> IsCents(used) && -0.005 <= used - spend / budget * 100.0 <= 0.005
  {
    if budget > 0.0 then Round2(spend / budget * 100.0) else 0.0
  }

  /** A dashboard entry: the query row with `roi` and `budget_used_percent` attached. */
  datatype DashboardRow = DashboardRow(campaign: Campaign, totals: Totals, roi: real, budgetUsedPercent: real)

  /** Each entry is its query row with the dashboard's ROI and budget usage attached. */
  predicate AttachesFigures(query: seq<QueryRow>, rows: seq<DashboardRow>) {
    |rows| == |query| &&
    forall k :: 0 <= k < |rows| ==>
      rows[k].campaign == query[k].campaign && rows[k].totals == query[k].totals &&
      rows[k].roi == DashboardRoi(query[k].totals) &&
      rows[k].budgetUsedPercent == DashboardBudgetUsed(query[k].campaign.budget, query[k].totals.spend)
  }

  /** Every entry is one of the caller's campaigns passing the filters. */
  ghost predicate OnlyShown(cs: seq<Campaign>, userId: nat, filterChannel: string, filterStatus: string,
                            rows: seq<DashboardRow>) {
    forall i :: 0 <= i < |rows| ==>
      rows[i].campaign in cs && Shown(rows[i].campaign, userId, filterChannel, filterStatus)
  }

  /** Every one of the caller's campaigns passing the filters has an entry. */
  ghost predicate AllShown(cs: seq<Campaign>, userId: nat, filterChannel: string, filterStatus: string,
                           rows: seq<DashboardRow>) {
    forall c :: c in cs && Shown(c, userId, filterChannel, filterStatus) ==>
      exists i :: 0 <= i < |rows| && rows[i].campaign == c
  }

  /** Entries are newest first and, when the table's ids are unique, no campaign has two. */
  ghost predicate OncePerCampaignNewestFirst(cs: seq<Campaign>, rows: seq<DashboardRow>) {
    && (UniqueIds(cs) ==> forall i, j :: 0 <= i < j < |rows| ==> rows[i].campaign.id != rows[j].campaign.id)
    && (forall i, j :: 0 <= i < j < |rows| ==> rows[i].campaign.createdAt >= rows[j].campaign.createdAt)
  }

  /** Each entry carries the sums of its own metric rows and the figures computed from them. */
  ghost predicate FiguresCorrect(ms: seq<MetricRow>, rows: seq<DashboardRow>) {
    forall i :: 0 <= i < |rows| ==>
      rows[i].totals == TotalsFor(ms, rows[i].campaign.id) &&
      rows[i].roi == DashboardRoi(rows[i].totals) &&
      rows[i].budgetUsedPercent == DashboardBudgetUsed(rows[i].campaign.budget, rows[i].totals.spend)
  }

  /** What the dashboard promises. */
  ghost predicate IsDashboard(cs: seq<Campaign>, ms: seq<MetricRow>, userId: nat,
                              filterChannel: string, filterStatus: string, rows: seq<DashboardRow>) {
    && OnlyShown(cs, userId, filterChannel, filterStatus, rows)
    && AllShown(cs, userId, filterChannel, filterStatus, rows)
    && OncePerCampaignNewestFirst(cs, rows)
    && FiguresCorrect(ms, rows)
  }

  lemma DashboardOnlyShown(cs: seq<Campaign>, ms: seq<MetricRow>, userId: nat,
                           filterChannel: string, filterStatus: string, rows: seq<DashboardRow>)
    requires AttachesFigures(QueryRows(cs, ms, Conditions(userId, filterChannel, filterStatus)), rows)
    ensures OnlyShown(cs, userId, filterChannel, filterStatus, rows)
  {
    var conds := Conditions(userId, filterChannel, filterStatus);
    var listed := CampaignsOf(QueryRows(cs, ms, conds));
    QueryRowsSpec(cs, ms, conds);
    forall i | 0 <= i < |rows|
      ensures rows[i].campaign in cs && Shown(rows[i].campaign, userId, filterChannel, filterStatus)
    {
      assert rows[i].campaign == listed[i];
      assert listed[i] in listed;
      ConditionsMeaning(listed[i], userId, filterChannel, filterStatus);
    }
  }

  lemma DashboardAllShown(cs: seq<Campaign>, ms: seq<MetricRow>, userId: nat,
                          filterChannel: string, filterStatus: string, rows: seq<DashboardRow>)
    requires AttachesFigures(QueryRows(cs, ms, Conditions(userId, filterChannel, filterStatus)), rows)
    ensures AllShown(cs, userId, filterChannel, filterStatus, rows)
  {
    var conds := Conditions(userId, filterChannel, filterStatus);
    var listed := CampaignsOf(QueryRows(cs, ms, conds));
    QueryRowsSpec(cs, ms, conds);
    forall c | c in cs && Shown(c, userId, filterChannel, filterStatus)
      ensures exists i :: 0 <= i < |rows| && rows[i].campaign == c
    {
      ConditionsMeaning(c, userId, filterChannel, filterStatus);
      assert c in listed;
      var i :| 0 <= i < |listed| && listed[i] == c;
      assert rows[i].campaign == c;
    }
  }

  lemma DashboardOrdered(cs: seq<Campaign>, ms: seq<MetricRow>, userId: nat,
                         filterChannel: string, filterStatus: string, rows: seq<DashboardRow>)
    requires AttachesFigures(QueryRows(cs, ms, Conditions(userId, filterChannel, filterStatus)), rows)
    ensures OncePerCampaignNewestFirst(cs, rows)
  {
    var conds := Conditions(userId, filterChannel, filterStatus);
    var listed := CampaignsOf(QueryRows(cs, ms, conds));
    QueryRowsSpec(cs, ms, conds);
    forall i, j | 0 <= i < j < |rows|
      ensures rows[i].campaign.createdAt >= rows[j].campaign.createdAt
      ensures UniqueIds(cs) ==> rows[i].campaign.id != rows[j].campaign.id
    {
      assert rows[i].campaign == listed[i] && rows[j].campaign == listed[j];
    }
  }

  /** Attaching the figures to the query for the assembled conditions gives the dashboard. */
  lemma DashboardCorrect(cs: seq<Campaign>, ms: seq<MetricRow>, userId: nat,
                         filterChannel: string, filterStatus: string, rows: seq<DashboardRow>)
    requires AttachesFigures(QueryRows(cs, ms, Conditions(userId, filterChannel, filterStatus)), rows)
    ensures IsDashboard(cs, ms, userId, filterChannel, filterStatus, rows)
  {
    DashboardOnlyShown(cs, ms, userId, filterChannel, filterStatus, rows);
    DashboardAllShown(cs, ms, userId, filterChannel, filterStatus, rows);
    DashboardOrdered(cs, ms, userId, filterChannel, filterStatus, rows);
  }
}
