/**
 * app.py computes the dashboard's ROI and budget usage inline instead of
 * calling `calculate_roi` and `calculate_budget_usage` from helpers.py, and
 * its guards differ from the helpers' (`spend > 0 and conversions > 0`
 * against `spend == 0`, and `budget > 0` against `budget == 0`). This module
 * states where the two agree and exhibits inputs where they do not.
 */
module Agreement {
  import opened Wrappers
  import opened Tables
  import opened Query
  import opened Metrics
  import opened Validators
  import opened Dates

  /** Under the dashboard's guard, its ROI is the helper's with the $50 default conversion value. */
  lemma RoiGuardsAgree(t: Totals)
    requires t.spend > 0.0 && t.conversions > 0
    ensures DashboardRoi(t) == CalculateRoi(t.conversions, t.spend, DefaultConversionValue)
  {
    assert (t.conversions * DashboardConversionValue) as real == t.conversions as real * DefaultConversionValue;
  }

  /**
   * With spend but no conversions the dashboard shows 0 while the helper
   * reports a loss of at least 100 percent.
   */
  lemma RoiGuardsDiffer(t: Totals)
    requires t.spend > 0.0 && t.conversions <= 0
    ensures DashboardRoi(t) == 0.0
    ensures CalculateRoi(t.conversions, t.spend, DefaultConversionValue) <= -100.0
  {
    var x := (t.conversions as real * DefaultConversionValue - t.spend) / t.spend * 100.0;
    assert t.conversions as real * DefaultConversionValue - t.spend <= -t.spend;
    assert x <= -100.0;
    Round2Monotone(x, -10000 as real / 100.0);
    Round2Exact(-10000);
  }

  /** For a positive budget the dashboard's usage is the helper's. */
  lemma BudgetGuardsAgree(budget: real, spend: real)
    requires budget > 0.0
    ensures DashboardBudgetUsed(budget, spend) == CalculateBudgetUsage(budget, spend)
  {
  }

  /** For a negative budget they differ: the helper divides, the dashboard shows 0. */
  lemma BudgetGuardsDiffer()
    ensures CalculateBudgetUsage(-100.0, 50.0) == -50.0
    ensures DashboardBudgetUsed(-100.0, 50.0) == 0.0
  {
    Round2Exact(-5000);
    assert 50.0 / -100.0 * 100.0 == -5000 as real / 100.0;
  }

  /**
   * Because every stored budget is positive, every dashboard entry's usage
   * is what `calculate_budget_usage` reports, and its ROI is what
   * `calculate_roi` reports whenever the entry has both spend and conversions.
   */
  lemma DashboardAgreesWithHelpers(cs: seq<Campaign>, ms: seq<MetricRow>, nextId: nat, userId: nat,
                                   filterChannel: string, filterStatus: string, rows: seq<DashboardRow>)
    requires CampaignTableValid(cs, nextId)
    requires IsDashboard(cs, ms, userId, filterChannel, filterStatus, rows)
    ensures forall i :: 0 <= i < |rows| ==>
      rows[i].budgetUsedPercent == CalculateBudgetUsage(rows[i].campaign.budget, rows[i].totals.spend)
    ensures forall i :: 0 <= i < |rows| && rows[i].totals.spend > 0.0 && rows[i].totals.conversions > 0 ==>
      rows[i].roi == CalculateRoi(rows[i].totals.conversions, rows[i].totals.spend, DefaultConversionValue)
  {
    forall i | 0 <= i < |rows|
      ensures rows[i].budgetUsedPercent == CalculateBudgetUsage(rows[i].campaign.budget, rows[i].totals.spend)
      ensures rows[i].totals.spend > 0.0 && rows[i].totals.conversions > 0 ==>
        rows[i].roi == CalculateRoi(rows[i].totals.conversions, rows[i].totals.spend, DefaultConversionValue)
    {
      MemberBelow(cs, rows[i].campaign, nextId);
      BudgetGuardsAgree(rows[i].campaign.budget, rows[i].totals.spend);
      if rows[i].totals.spend > 0.0 && rows[i].totals.conversions > 0 {
        RoiGuardsAgree(rows[i].totals);
      }
    }
  }

  /** The create and edit handlers' budget check is `validate_budget` on the submitted text. */
  lemma FormBudgetIsValidateBudget(form: CampaignForm, withStatus: bool, parseReal: string -> Option<real>)
    requires RequiredPresent(form, withStatus)
    ensures CheckCampaignForm(form, withStatus, parseReal).Success? <==>
      ValidateBudget(PyStr(form.budget.value), parseReal)
  {
  }

  /**
   * The handlers never call `validate_date_range`: a campaign that ends
   * before it starts is accepted, by the create form and by the edit form.
   */
  lemma ReversedDatesAccepted(parseReal: string -> Option<real>)
    requires parseReal("500") == Some(500.0)
    ensures !ValidateDateRange("2026-02-28", "2026-02-01")
    ensures CheckCampaignForm(CampaignForm(Some("Spring"), Some("500"), Some("Instagram"),
                                           Some("2026-02-28"), Some("2026-02-01"), None), false, parseReal).Success?
    ensures CheckCampaignForm(CampaignForm(Some("Spring"), Some("500"), Some("Instagram"),
                                           Some("2026-02-28"), Some("2026-02-01"), Some("paused")), true, parseReal).Success?
  {
    assert "2026-02-28"[5..] == "02-28" && "02-28"[3..] == "28";
    assert "2026-02-01"[5..] == "02-01" && "02-01"[3..] == "01";
    assert ParseDate("2026-02-28") == Some(Date(2026, 2, 28));
    assert ParseDate("2026-02-01") == Some(Date(2026, 2, 1));
    DateLeIsCalendarOrder(Date(2026, 2, 28), Date(2026, 2, 1));
  }
}
