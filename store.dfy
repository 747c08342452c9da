/**
 * The three tables of app.py held in memory, with the route handlers that
 * write them (`register`, `create_campaign`, `edit_campaign`,
 * `delete_campaign`, `add_metrics`) and the two that only read
 * (`login`, `dashboard`). The caller is the session's user id, `None` when
 * nobody is logged in; `login_required` then turns the request away.
 */
module CampaignStore {
  import opened Wrappers
  import opened Tables
  import opened Query
  import Metrics
  import Agreement

  /** What a handler reports back. Only `Done` writes anything. */
  datatype Outcome =
    | Done
    | NotLoggedIn
    | NotFound
    | Rejected(reason: Reason)
    | IntegrityError

  class Store {
    var users: seq<User>
    var campaigns: seq<Campaign>
    var metrics: seq<MetricRow>
    /** The AUTOINCREMENT counters: the id the next inserted row gets. */
    var nextUserId: nat
    var nextCampaignId: nat
    var nextMetricId: nat

    /**
     * Primary keys are unique and below their counter, usernames and emails
     * are unique, and every metric row points at an id that has been handed
     * out (the row it was added to may since have been deleted).
     */
    ghost predicate Valid()
      reads this
    {
      && nextUserId >= 1 && nextCampaignId >= 1 && nextMetricId >= 1
      && (forall i :: 0 <= i < |users| ==> users[i].id < nextUserId)
      && (forall i, j :: 0 <= i < j < |users| ==>
            users[i].id != users[j].id && users[i].username != users[j].username &&
            users[i].email != users[j].email)
      && CampaignTableValid(campaigns, nextCampaignId)
      && MetricTableValid(metrics, nextMetricId, nextCampaignId)
    }

    /** Empty tables, as `init_db` creates them. */
    constructor ()
      ensures Valid()
      ensures users == [] && campaigns == [] && metrics == []
      ensures nextUserId == 1 && nextCampaignId == 1 && nextMetricId == 1
    {
      users, campaigns, metrics := [], [], [];
      nextUserId, nextCampaignId, nextMetricId := 1, 1, 1;
    }

    /**
     * `register`: on a form that passes every check, insert one user with
     * the next id; otherwise change nothing. `passwordHash` is the value of
     * `generate_password_hash(password)`, which is salted and not modelled.
     */
    method Register(form: RegisterForm, passwordHash: string, now: int) returns (outcome: Outcome)
      requires Valid()
      modifies this
      ensures Valid()
      ensures campaigns == old(campaigns) && metrics == old(metrics)
      ensures nextCampaignId == old(nextCampaignId) && nextMetricId == old(nextMetricId)
      ensures CheckRegistration(form, old(users)).Failure? ==>
        outcome == Rejected(CheckRegistration(form, old(users)).error) &&
        users == old(users) && nextUserId == old(nextUserId)
      ensures CheckRegistration(form, old(users)).Success? ==>
        outcome == Done && nextUserId == old(nextUserId) + 1 &&
        users == old(users) + [User(old(nextUserId), form.username.value, form.email.value, passwordHash, now)]
    {
      match CheckRegistration(form, users)
      case Failure(reason) =>
        outcome := Rejected(reason);
      case Success(cred) =>
        var user := User(nextUserId, cred.username, cred.email, passwordHash, now);
        assert forall k :: 0 <= k < |users| ==> users[k].username != cred.username && users[k].email != cred.email;
        users := users + [user];
        nextUserId := nextUserId + 1;
        outcome := Done;
    }

    /**
     * `login`: both fields present, a user with that username, and a
     * password that `checkPassword` (werkzeug's `check_password_hash`)
     * accepts against the stored hash; the result is the session's user id.
     */
    function Login(username: Option<string>, password: Option<string>, checkPassword: (string, string) -> bool): (id: Option<nat>)
      reads this
      ensures id.Some? <==>
        Present(username) && Present(password) &&
        exists u :: u in users && u.username == username.value && checkPassword(u.passwordHash, password.value)
          && FindUser(users, username.value) == Some(u)
      ensures id.Some? ==> exists u :: u in users && u.id == id.value && u.username == username.value
      ensures id.Some? ==> id.value == FindUser(users, username.value).value.id
    {
      if !Present(username) || !Present(password) then None
      else match FindUser(users, username.value)
        case None => None
        case Some(u) => if checkPassword(u.passwordHash, password.value) then Some(u.id) else None
    }

    /**
     * `create_campaign`: on a form that passes its checks, insert one
     * campaign owned by the caller with status 'active' and the next id;
     * otherwise change nothing. The start and end dates are not compared.
     * `now` is the value of CURRENT_TIMESTAMP.
     */
    method CreateCampaign(caller: Option<nat>, form: CampaignForm, parseReal: string -> Option<real>, now: int)
      returns (outcome: Outcome)
      requires Valid()
      modifies this
      ensures Valid()
      ensures users == old(users) && metrics == old(metrics)
      ensures nextUserId == old(nextUserId) && nextMetricId == old(nextMetricId)
      ensures caller.None? ==> outcome == NotLoggedIn
      ensures caller.Some? && CheckCampaignForm(form, false, parseReal).Failure? ==>
        outcome == Rejected(CheckCampaignForm(form, false, parseReal).error)
      ensures outcome != Done ==> campaigns == old(campaigns) && nextCampaignId == old(nextCampaignId)
      ensures outcome == Done <==> caller.Some? && CheckCampaignForm(form, false, parseReal).Success?
      ensures outcome == Done ==>
        var f := CheckCampaignForm(form, false, parseReal).value;
        && nextCampaignId == old(nextCampaignId) + 1
        && campaigns == old(campaigns) + [Campaign(old(nextCampaignId), caller.value, f.name, f.budget,
                                                   f.channel, f.startDate, f.endDate, DefaultStatus, now)]
        && TotalsFor(metrics, old(nextCampaignId)) == NoTotals
    {
      if caller.None? {
        return NotLoggedIn;
      }
      match CheckCampaignForm(form, false, parseReal)
      case Failure(reason) =>
        outcome := Rejected(reason);
      case Success(f) =>
        var id := nextCampaignId;
        campaigns := campaigns + [Campaign(id, caller.value, f.name, f.budget, f.channel,
                                           f.startDate, f.endDate, DefaultStatus, now)];
        nextCampaignId := nextCampaignId + 1;
        outcome := Done;
    }

    /**
     * `edit_campaign`: a campaign that is absent or not the caller's is
     * "not found"; a form failing its checks is refused; otherwise the six
     * submitted fields of that one row are replaced.
     */
    method EditCampaign(caller: Option<nat>, campaignId: nat, form: CampaignForm, parseReal: string -> Option<real>)
      returns (outcome: Outcome)
      requires Valid()
      modifies this
      ensures Valid()
      ensures users == old(users) && metrics == old(metrics)
      ensures nextUserId == old(nextUserId) && nextCampaignId == old(nextCampaignId) && nextMetricId == old(nextMetricId)
      ensures caller.None? ==> outcome == NotLoggedIn
      ensures caller.Some? && FindOwned(old(campaigns), campaignId, caller.value).None? ==> outcome == NotFound
      ensures (caller.Some? && FindOwned(old(campaigns), campaignId, caller.value).Some? &&
               CheckCampaignForm(form, true, parseReal).Failure?) ==>
        outcome == Rejected(CheckCampaignForm(form, true, parseReal).error)
      ensures outcome != Done ==> campaigns == old(campaigns)
      ensures outcome == Done <==>
        caller.Some? && FindOwned(old(campaigns), campaignId, caller.value).Some? &&
        CheckCampaignForm(form, true, parseReal).Success?
      ensures outcome == Done ==>
        exists k :: 0 <= k < |old(campaigns)| && Owned(old(campaigns)[k], campaignId, caller.value) &&
          campaigns == old(campaigns)[k := Edited(old(campaigns)[k], CheckCampaignForm(form, true, parseReal).value)]
      ensures outcome == Done ==>
        campaigns == UpdateOwned(old(campaigns), campaignId, caller.value, CheckCampaignForm(form, true, parseReal).value)
      ensures |campaigns| == |old(campaigns)|
    {
      if caller.None? {
        return NotLoggedIn;
      }
      if FindOwned(campaigns, campaignId, caller.value).None? {
        return NotFound;
      }
      match CheckCampaignForm(form, true, parseReal)
      case Failure(reason) =>
        outcome := Rejected(reason);
      case Success(f) =>
        var found := FindOwned(campaigns, campaignId, caller.value).value;
        var k :| 0 <= k < |campaigns| && campaigns[k] == found;
        var edited := campaigns[k := Edited(campaigns[k], f)];
        EditKeepsTable(campaigns, k, f, nextCampaignId);
        OwnedRowUpdated(campaigns, k, campaignId, caller.value, f);
        campaigns := edited;
        outcome := Done;
    }

    /**
     * `delete_campaign`: remove the row whose id and owner both match, if
     * there is one, and report success either way. Metric rows are kept:
     * foreign keys are not enforced, so `ON DELETE CASCADE` does not fire.
     */
    method DeleteCampaign(caller: Option<nat>, campaignId: nat) returns (outcome: Outcome)
      requires Valid()
      modifies this
      ensures Valid()
      ensures users == old(users) && metrics == old(metrics)
      ensures nextUserId == old(nextUserId) && nextCampaignId == old(nextCampaignId) && nextMetricId == old(nextMetricId)
      ensures caller.None? ==> outcome == NotLoggedIn && campaigns == old(campaigns)
      ensures caller.Some? ==> outcome == Done
      ensures caller.Some? ==> forall c :: c in campaigns <==> c in old(campaigns) && !Owned(c, campaignId, caller.value)
      ensures caller.Some? && FindOwned(old(campaigns), campaignId, caller.value).None? ==> campaigns == old(campaigns)
      ensures caller.Some? && FindOwned(old(campaigns), campaignId, caller.value).Some? ==>
        exists k :: 0 <= k < |old(campaigns)| && Owned(old(campaigns)[k], campaignId, caller.value) &&
          campaigns == old(campaigns)[..k] + old(campaigns)[k + 1..]
    {
      if caller.None? {
        return NotLoggedIn;
      }
      var rest := RemoveOwned(campaigns, campaignId, caller.value);
      match FindOwned(campaigns, campaignId, caller.value) {
        case None =>
          NoOwnedUnchanged(campaigns, campaignId, caller.value, CampaignFields("", 0.0, "", "", "", ""));
        case Some(found) =>
          var k :| 0 <= k < |campaigns| && campaigns[k] == found;
          OwnedRowRemoved(campaigns, k, campaignId, caller.value);
          assert 0 <= k < |campaigns| && Owned(campaigns[k], campaignId, caller.value) &&
            rest == campaigns[..k] + campaigns[k + 1..];
      }
      RemoveKeepsTable(campaigns, campaignId, caller.value, nextCampaignId);
      campaigns := rest;
      outcome := Done;
    }

    /**
     * `add_metrics`: a campaign that is absent or not the caller's is "not
     * found"; a value that fails `int()` or `float()` refuses the whole
     * submission; an absent date violates NOT NULL at the INSERT; otherwise
     * one metric row with the next id is appended.
     */
    method AddMetrics(caller: Option<nat>, campaignId: nat, form: MetricsForm,
                      parseInt: string -> Option<int>, parseReal: string -> Option<real>)
      returns (outcome: Outcome)
      requires Valid()
      modifies this
      ensures Valid()
      ensures users == old(users) && campaigns == old(campaigns)
      ensures nextUserId == old(nextUserId) && nextCampaignId == old(nextCampaignId)
      ensures caller.None? ==> outcome == NotLoggedIn
      ensures caller.Some? && FindOwned(campaigns, campaignId, caller.value).None? ==> outcome == NotFound
      ensures (caller.Some? && FindOwned(campaigns, campaignId, caller.value).Some? &&
               CheckMetricsForm(form, parseInt, parseReal).Failure?) ==> outcome == Rejected(InvalidMetricValues)
      ensures (caller.Some? && FindOwned(campaigns, campaignId, caller.value).Some? &&
               CheckMetricsForm(form, parseInt, parseReal).Success? && form.date.None?) ==> outcome == IntegrityError
      ensures outcome != Done ==> metrics == old(metrics) && nextMetricId == old(nextMetricId)
      ensures outcome == Done <==>
        caller.Some? && FindOwned(campaigns, campaignId, caller.value).Some? &&
        CheckMetricsForm(form, parseInt, parseReal).Success? && form.date.Some?
      ensures outcome == Done ==>
        var v := CheckMetricsForm(form, parseInt, parseReal).value;
        var row := MetricRow(old(nextMetricId), campaignId, form.date.value, v.impressions, v.clicks, v.conversions, v.spend);
        && metrics == old(metrics) + [row]
        && nextMetricId == old(nextMetricId) + 1
    {
      if caller.None? {
        return NotLoggedIn;
      }
      if FindOwned(campaigns, campaignId, caller.value).None? {
        return NotFound;
      }
      match CheckMetricsForm(form, parseInt, parseReal)
      case Failure(reason) =>
        outcome := Rejected(reason);
      case Success(v) =>
        if form.date.None? {
          return IntegrityError;
        }
        var row := MetricRow(nextMetricId, campaignId, form.date.value, v.impressions, v.clicks, v.conversions, v.spend);
        MemberBelow(campaigns, FindOwned(campaigns, campaignId, caller.value).value, nextCampaignId);
        AppendKeepsMetricTable(metrics, row, nextMetricId, nextCampaignId);
        metrics := metrics + [row];
        nextMetricId := nextMetricId + 1;
        outcome := Done;
    }

    /**
     * `dashboard`: the caller's campaigns, narrowed by the non-empty
     * filters, each once with the sums of its metric rows, newest first,
     * each with its ROI and budget usage. `None` when nobody is logged in.
     */
    method Dashboard(caller: Option<nat>, filterChannel: string, filterStatus: string)
      returns (view: Option<seq<DashboardRow>>)
      requires Valid()
      ensures view.Some? <==> caller.Some?
      ensures view.Some? ==> IsDashboard(campaigns, metrics, caller.value, filterChannel, filterStatus, view.value)
      ensures view.Some? ==> forall i :: 0 <= i < |view.value| ==>
        view.value[i].budgetUsedPercent ==
          Metrics.CalculateBudgetUsage(view.value[i].campaign.budget, view.value[i].totals.spend)
      ensures view.Some? ==> forall i ::
        (0 <= i < |view.value| && view.value[i].totals.spend > 0.0 && view.value[i].totals.conversions > 0) ==>
        view.value[i].roi == Metrics.CalculateRoi(view.value[i].totals.conversions, view.value[i].totals.spend,
                                                  Metrics.DefaultConversionValue)
    {
      if caller.None? {
        return None;
      }
      var conds := [OwnerIs(caller.value)];
      if filterChannel != "" {
        conds := conds + [ChannelIs(filterChannel)];
      }
      if filterStatus != "" {
        conds := conds + [StatusIs(filterStatus)];
      }
      assert conds == Conditions(caller.value, filterChannel, filterStatus);
      var query := QueryRows(campaigns, metrics, conds);

      var rows: seq<DashboardRow> := [];
      var i := 0;
      while i < |query|
        invariant 0 <= i <= |query|
        invariant |rows| == i
        invariant forall k :: 0 <= k < i ==>
          rows[k].campaign == query[k].campaign && rows[k].totals == query[k].totals &&
          rows[k].roi == DashboardRoi(query[k].totals) &&
          rows[k].budgetUsedPercent == DashboardBudgetUsed(query[k].campaign.budget, query[k].totals.spend)
      {
        var row := query[i];
        var roi := DashboardRoi(row.totals);
        var used := DashboardBudgetUsed(row.campaign.budget, row.totals.spend);
        rows := rows + [DashboardRow(row.campaign, row.totals, roi, used)];
        i := i + 1;
      }
      DashboardCorrect(campaigns, metrics, caller.value, filterChannel, filterStatus, rows);
      Agreement.DashboardAgreesWithHelpers(campaigns, metrics, nextCampaignId, caller.value,
                                           filterChannel, filterStatus, rows);
      view := Some(rows);
    }
  }
}
