/**
 * The rows of app.py's three tables (users, campaigns, metrics), the checks
 * its route handlers apply to a submitted form before they write, and the
 * owner-scoped lookup, UPDATE and DELETE on the campaigns table.
 */
module Tables {
  import opened Wrappers

  datatype User = User(id: nat, username: string, email: string, passwordHash: string, createdAt: int)

  datatype Campaign = Campaign(
    id: nat, userId: nat, name: string, budget: real, channel: string,
    startDate: string, endDate: string, status: string, createdAt: int)

  datatype MetricRow = MetricRow(
    id: nat, campaignId: nat, date: string,
    impressions: int, clicks: int, conversions: int, spend: real)

  /** The column default of `campaigns.status`. */
  const DefaultStatus: string := "active"

  /** The shortest password `register` accepts. */
  const MinPasswordLength: nat := 6

  /** Why a submission was refused with nothing written. */
  datatype Reason =
    | FieldsRequired
    | PasswordsDiffer
    | PasswordTooShort
    | AlreadyExists
    | BudgetNotPositive
    | InvalidMetricValues

  /** Python's truth value of `request.form.get(name)`: present and non-empty. */
  predicate Present(field: Option<string>) {
    field.Some? && field.value != ""
  }

  // ---------------------------------------------------------------- users

  datatype RegisterForm = RegisterForm(
    username: Option<string>, email: Option<string>,
    password: Option<string>, confirmPassword: Option<string>)

  datatype Credentials = Credentials(username: string, email: string, password: string)

  predicate UsernameTaken(users: seq<User>, username: string) {
    exists k :: 0 <= k < |users| && users[k].username == username
  }

  predicate EmailTaken(users: seq<User>, email: string) {
    exists k :: 0 <= k < |users| && users[k].email == email
  }

  /**
   * The checks of `register`, in its order: every field present, the two
   * passwords equal, at least six characters, and then the UNIQUE
   * constraints on username and email.
   */
  function CheckRegistration(form: RegisterForm, users: seq<User>): (r: Result<Credentials, Reason>)
    ensures r.Success? <==>
      Present(form.username) && Present(form.email) && Present(form.password) &&
      form.confirmPassword == form.password && |form.password.value| >= MinPasswordLength &&
      !UsernameTaken(users, form.username.value) && !EmailTaken(users, form.email.value)
    ensures r.Success? ==>
      r.value == Credentials(form.username.value, form.email.value, form.password.value)
    ensures r.Failure? && !Present(form.password) ==> r.error == FieldsRequired
  {
    if !Present(form.username) || !Present(form.email) || !Present(form.password) then Failure(FieldsRequired)
    else if form.password != form.confirmPassword then Failure(PasswordsDiffer)
    else if |form.password.value| < MinPasswordLength then Failure(PasswordTooShort)
    else if UsernameTaken(users, form.username.value) || EmailTaken(users, form.email.value) then Failure(AlreadyExists)
    else Success(Credentials(form.username.value, form.email.value, form.password.value))
  }

  /** `SELECT * FROM users WHERE username = ?` and `fetchone()`: the first match. */
  function FindUser(users: seq<User>, username: string): (r: Option<User>)
    ensures r.Some? ==> r.value in users && r.value.username == username
    ensures r.None? <==> !UsernameTaken(users, username)
  {
    if users == [] then None
    else if users[0].username == username then Some(users[0])
    else
      var r := FindUser(users[1..], username);
      assert UsernameTaken(users, username) ==> users[0].username == username || UsernameTaken(users[1..], username) by {
        if UsernameTaken(users, username) {
          var k :| 0 <= k < |users| && users[k].username == username;
          if k > 0 {
            assert users[1..][k - 1].username == username;
          }
        }
      }
      assert UsernameTaken(users[1..], username) ==> UsernameTaken(users, username) by {
        if UsernameTaken(users[1..], username) {
          var k :| 0 <= k < |users| - 1 && users[1..][k].username == username;
          assert users[k + 1].username == username;
        }
      }
      r
  }

  // ------------------------------------------------------------ campaigns

  /** The fields of the create and edit forms (create has no status field). */
  datatype CampaignForm = CampaignForm(
    name: Option<string>, budget: Option<string>, channel: Option<string>,
    startDate: Option<string>, endDate: Option<string>, status: Option<string>)

  /** The values a campaign row is written with. */
  datatype CampaignFields = CampaignFields(
    name: string, budget: real, channel: string, startDate: string, endDate: string, status: string)

  /** `all([...])` over the required fields; `withStatus` for the edit form. */
  predicate RequiredPresent(form: CampaignForm, withStatus: bool) {
    Present(form.name) && Present(form.budget) && Present(form.channel) &&
    Present(form.startDate) && Present(form.endDate) && (withStatus ==> Present(form.status))
  }

  /**
   * The checks of `create_campaign` (`withStatus` false) and `edit_campaign`
   * (`withStatus` true): the required fields, then `float(budget)` and
   * `budget > 0`. The dates are written as submitted text and never compared
   * (the column's NUMERIC affinity is not modelled).
   */
  function CheckCampaignForm(form: CampaignForm, withStatus: bool, parseReal: string -> Option<real>): (r: Result<CampaignFields, Reason>)
    ensures !RequiredPresent(form, withStatus) ==> r == Failure(FieldsRequired)
    ensures RequiredPresent(form, withStatus) ==>
      (r.Success? <==> parseReal(form.budget.value).Some? && parseReal(form.budget.value).value > 0.0)
    ensures r.Failure? ==> r.error == FieldsRequired || r.error == BudgetNotPositive
    ensures r.Success? ==>
      r.value.name == form.name.value && r.value.name != "" &&
      r.value.channel == form.channel.value && r.value.channel != "" &&
      r.value.startDate == form.startDate.value && r.value.endDate == form.endDate.value &&
      Some(r.value.budget) == parseReal(form.budget.value) && r.value.budget > 0.0 &&
      r.value.status == (if withStatus then form.status.value else DefaultStatus)
  {
    if !RequiredPresent(form, withStatus) then Failure(FieldsRequired)
    else match parseReal(form.budget.value)
      case None => Failure(BudgetNotPositive)
      case Some(b) =>
        if b <= 0.0 then Failure(BudgetNotPositive)
        else Success(CampaignFields(
          form.name.value, b, form.channel.value, form.startDate.value, form.endDate.value,
          if withStatus then form.status.value else DefaultStatus))
  }

  /** The row matches `WHERE id = ? AND user_id = ?`. */
  predicate Owned(c: Campaign, campaignId: nat, userId: nat) {
    c.id == campaignId && c.userId == userId
  }

  /** No two rows share an `INTEGER PRIMARY KEY`. */
  predicate UniqueIds(cs: seq<Campaign>) {
    forall i, j :: 0 <= i < j < |cs| ==> cs[i].id != cs[j].id
  }

  lemma PrependUnique(c: Campaign, s: seq<Campaign>)
    requires UniqueIds(s) && forall x :: x in s ==> x.id != c.id
    ensures UniqueIds([c] + s)
  {
    var t := [c] + s;
    forall i, j | 0 <= i < j < |t| ensures t[i].id != t[j].id {
      if i == 0 {
        assert t[j] == s[j - 1];
      } else {
        assert t[i] == s[i - 1] && t[j] == s[j - 1];
      }
    }
  }

  lemma TailUnique(s: seq<Campaign>)
    requires UniqueIds(s) && s != []
    ensures UniqueIds(s[1..]) && forall x :: x in s[1..] ==> x.id != s[0].id
  {
    forall x | x in s[1..] ensures x.id != s[0].id {
      var j :| 0 <= j < |s[1..]| && s[1..][j] == x;
      assert s[j + 1] == x;
    }
    forall i, j | 0 <= i < j < |s[1..]| ensures s[1..][i].id != s[1..][j].id {
      assert s[1..][i] == s[i + 1] && s[1..][j] == s[j + 1];
    }
  }

  /** `SELECT * FROM campaigns WHERE id = ? AND user_id = ?` and `fetchone()`. */
  function FindOwned(cs: seq<Campaign>, campaignId: nat, userId: nat): (r: Option<Campaign>)
    ensures r.Some? ==> r.value in cs && Owned(r.value, campaignId, userId)
    ensures r.None? ==> forall c :: c in cs ==> !Owned(c, campaignId, userId)
  {
    if cs == [] then None
    else if Owned(cs[0], campaignId, userId) then Some(cs[0])
    else FindOwned(cs[1..], campaignId, userId)
  }

  /** A row after `SET name = ?, budget = ?, channel = ?, start_date = ?, end_date = ?, status = ?`. */
  function Edited(c: Campaign, f: CampaignFields): Campaign {
    c.(name := f.name, budget := f.budget, channel := f.channel,
       startDate := f.startDate, endDate := f.endDate, status := f.status)
  }

  /** `UPDATE campaigns SET ... WHERE id = ? AND user_id = ?`. */
  function UpdateOwned(cs: seq<Campaign>, campaignId: nat, userId: nat, f: CampaignFields): (r: seq<Campaign>)
    ensures |r| == |cs|
    ensures forall i :: 0 <= i < |cs| && !Owned(cs[i], campaignId, userId) ==> r[i] == cs[i]
    ensures forall i :: 0 <= i < |cs| && Owned(cs[i], campaignId, userId) ==>
      r[i].id == cs[i].id && r[i].userId == cs[i].userId && r[i].createdAt == cs[i].createdAt &&
      r[i].name == f.name && r[i].budget == f.budget && r[i].channel == f.channel &&
      r[i].startDate == f.startDate && r[i].endDate == f.endDate && r[i].status == f.status
  {
    if cs == [] then []
    else
      [if Owned(cs[0], campaignId, userId) then Edited(cs[0], f) else cs[0]] +
      UpdateOwned(cs[1..], campaignId, userId, f)
  }

  /** `DELETE FROM campaigns WHERE id = ? AND user_id = ?`. */
  function RemoveOwned(cs: seq<Campaign>, campaignId: nat, userId: nat): (r: seq<Campaign>)
    ensures forall c :: c in r <==> c in cs && !Owned(c, campaignId, userId)
    ensures |r| <= |cs|
  {
    if cs == [] then []
    else
      (if Owned(cs[0], campaignId, userId) then [] else [cs[0]]) +
      RemoveOwned(cs[1..], campaignId, userId)
  }

  /** Deleting rows keeps the remaining ids unique. */
  lemma {:induction false} RemoveUnique(cs: seq<Campaign>, campaignId: nat, userId: nat)
    requires UniqueIds(cs)
    ensures UniqueIds(RemoveOwned(cs, campaignId, userId))
  {
    if cs != [] {
      TailUnique(cs);
      RemoveUnique(cs[1..], campaignId, userId);
      if !Owned(cs[0], campaignId, userId) {
        PrependUnique(cs[0], RemoveOwned(cs[1..], campaignId, userId));
      }
    }
  }

  lemma {:induction false} NoOwnedUnchanged(cs: seq<Campaign>, campaignId: nat, userId: nat, f: CampaignFields)
    requires forall c :: c in cs ==> !Owned(c, campaignId, userId)
    ensures RemoveOwned(cs, campaignId, userId) == cs
    ensures UpdateOwned(cs, campaignId, userId, f) == cs
  {
    if cs != [] {
      assert cs[0] in cs;
      NoOwnedUnchanged(cs[1..], campaignId, userId, f);
    }
  }

  /** With unique ids, a successful UPDATE changes exactly the one row found. */
  lemma {:induction false} OwnedRowUpdated(cs: seq<Campaign>, k: nat, campaignId: nat, userId: nat, f: CampaignFields)
    requires UniqueIds(cs) && k < |cs| && Owned(cs[k], campaignId, userId)
    ensures UpdateOwned(cs, campaignId, userId, f) == cs[k := Edited(cs[k], f)]
  {
    TailUnique(cs);
    var tail := cs[1..];
    if k == 0 {
      NoOwnedUnchanged(tail, campaignId, userId, f);
      assert UpdateOwned(cs, campaignId, userId, f) == [Edited(cs[0], f)] + tail;
    } else {
      assert tail[k - 1] == cs[k];
      OwnedRowUpdated(tail, k - 1, campaignId, userId, f);
      assert cs[0].id != cs[k].id;
      assert UpdateOwned(cs, campaignId, userId, f) == [cs[0]] + tail[k - 1 := Edited(cs[k], f)];
      assert [cs[0]] + tail[k - 1 := Edited(cs[k], f)] == cs[k := Edited(cs[k], f)];
    }
  }

  /** Removing element `k - 1` from the tail and putting the head back removes element `k`. */
  lemma ConsSplice<T>(s: seq<T>, k: nat)
    requires 0 < k < |s|
    ensures [s[0]] + (s[1..][..k - 1] + s[1..][k..]) == s[..k] + s[k + 1..]
  {
    var l := [s[0]] + (s[1..][..k - 1] + s[1..][k..]);
    var r := s[..k] + s[k + 1..];
    assert |l| == |r|;
    forall i | 0 <= i < |l| ensures l[i] == r[i] {
      if i == 0 {
      } else if i < k {
        assert l[i] == s[i];
      } else {
        assert l[i] == s[i + 1];
      }
    }
  }

  /** With unique ids, a DELETE of the row found removes exactly it and keeps the others in order. */
  lemma {:induction false} OwnedRowRemoved(cs: seq<Campaign>, k: nat, campaignId: nat, userId: nat)
    requires UniqueIds(cs) && k < |cs| && Owned(cs[k], campaignId, userId)
    ensures RemoveOwned(cs, campaignId, userId) == cs[..k] + cs[k + 1..]
  {
    TailUnique(cs);
    var tail := cs[1..];
    var dummy := CampaignFields("", 0.0, "", "", "", "");
    if k == 0 {
      NoOwnedUnchanged(tail, campaignId, userId, dummy);
      assert RemoveOwned(cs, campaignId, userId) == tail;
    } else {
      assert tail[k - 1] == cs[k];
      OwnedRowRemoved(tail, k - 1, campaignId, userId);
      assert cs[0].id != cs[k].id;
      assert RemoveOwned(cs, campaignId, userId) == [cs[0]] + RemoveOwned(tail, campaignId, userId);
      ConsSplice(cs, k);
    }
  }

  /**
   * The campaigns table's invariant: unique ids, each below the AUTOINCREMENT
   * counter, and a positive budget (the only writers refuse any other).
   */
  predicate CampaignTableValid(cs: seq<Campaign>, nextId: nat) {
    UniqueIds(cs) && forall i :: 0 <= i < |cs| ==> cs[i].id < nextId && cs[i].budget > 0.0
  }

  /** A row of a valid table has an id already handed out. */
  lemma MemberBelow(cs: seq<Campaign>, c: Campaign, nextId: nat)
    requires CampaignTableValid(cs, nextId) && c in cs
    ensures c.id < nextId && c.budget > 0.0
  {
  }

  /** Editing the row found keeps the key invariant and touches no other row. */
  lemma EditKeepsTable(cs: seq<Campaign>, k: nat, f: CampaignFields, nextId: nat)
    requires CampaignTableValid(cs, nextId) && k < |cs| && f.budget > 0.0
    ensures CampaignTableValid(cs[k := Edited(cs[k], f)], nextId)
    ensures forall i :: 0 <= i < |cs| && i != k ==> cs[k := Edited(cs[k], f)][i] == cs[i]
  {
    var r := cs[k := Edited(cs[k], f)];
    assert forall i :: 0 <= i < |cs| ==> r[i].id == cs[i].id;
  }

  /** Deleting rows keeps the key invariant. */
  lemma RemoveKeepsTable(cs: seq<Campaign>, campaignId: nat, userId: nat, nextId: nat)
    requires CampaignTableValid(cs, nextId)
    ensures CampaignTableValid(RemoveOwned(cs, campaignId, userId), nextId)
  {
    RemoveUnique(cs, campaignId, userId);
    var r := RemoveOwned(cs, campaignId, userId);
    forall i | 0 <= i < |r| ensures r[i].id < nextId && r[i].budget > 0.0 {
      assert r[i] in cs;
    }
  }

  // -------------------------------------------------------------- metrics

  /** The fields of the add-metrics form. */
  datatype MetricsForm = MetricsForm(
    date: Option<string>, impressions: Option<string>, clicks: Option<string>,
    conversions: Option<string>, spend: Option<string>)

  datatype MetricValues = MetricValues(impressions: int, clicks: int, conversions: int, spend: real)

  /** `int(request.form.get(name, 0))`: an absent field is 0. */
  function IntField(field: Option<string>, parseInt: string -> Option<int>): (r: Option<int>)
    ensures field.None? ==> r == Some(0)
    ensures field.Some? ==> r == parseInt(field.value)
  {
    match field
    case None => Some(0)
    case Some(s) => parseInt(s)
  }

  /** `float(request.form.get(name, 0))`: an absent field is 0.0. */
  function RealField(field: Option<string>, parseReal: string -> Option<real>): (r: Option<real>)
    ensures field.None? ==> r == Some(0.0)
    ensures field.Some? ==> r == parseReal(field.value)
  {
    match field
    case None => Some(0.0)
    case Some(s) => parseReal(s)
  }

  /**
   * The `try` block of `add_metrics`: three `int()` and one `float()`
   * conversions; any failure refuses the whole submission.
   */
  function CheckMetricsForm(form: MetricsForm, parseInt: string -> Option<int>, parseReal: string -> Option<real>): (r: Result<MetricValues, Reason>)
    ensures r.Success? <==>
      IntField(form.impressions, parseInt).Some? && IntField(form.clicks, parseInt).Some? &&
      IntField(form.conversions, parseInt).Some? && RealField(form.spend, parseReal).Some?
    ensures r.Success? ==>
      Some(r.value.impressions) == IntField(form.impressions, parseInt) &&
      Some(r.value.clicks) == IntField(form.clicks, parseInt) &&
      Some(r.value.conversions) == IntField(form.conversions, parseInt) &&
      Some(r.value.spend) == RealField(form.spend, parseReal)
    ensures r.Failure? ==> r.error == InvalidMetricValues
  {
    match (IntField(form.impressions, parseInt), IntField(form.clicks, parseInt),
           IntField(form.conversions, parseInt), RealField(form.spend, parseReal))
    case (Some(i), Some(c), Some(v), Some(s)) => Success(MetricValues(i, c, v, s))
    case _ => Failure(InvalidMetricValues)
  }

  /**
   * The metrics table's invariant: unique ids, each below its counter, and
   * every row pointing at a campaign id that has been handed out.
   */
  predicate MetricTableValid(ms: seq<MetricRow>, nextId: nat, nextCampaignId: nat) {
    && (forall i :: 0 <= i < |ms| ==> ms[i].id < nextId && ms[i].campaignId < nextCampaignId)
    && (forall i, j :: 0 <= i < j < |ms| ==> ms[i].id != ms[j].id)
  }

  /** Appending a row with the next id that points at a handed-out campaign keeps the invariant. */
  lemma AppendKeepsMetricTable(ms: seq<MetricRow>, row: MetricRow, nextId: nat, nextCampaignId: nat)
    requires MetricTableValid(ms, nextId, nextCampaignId)
    requires row.id == nextId && row.campaignId < nextCampaignId
    ensures MetricTableValid(ms + [row], nextId + 1, nextCampaignId)
  {
    var r := ms + [row];
    forall i, j | 0 <= i < j < |r| ensures r[i].id != r[j].id {
      if j == |ms| {
        assert r[i] == ms[i] && r[j] == row;
      } else {
        assert r[i] == ms[i] && r[j] == ms[j];
      }
    }
  }
}
