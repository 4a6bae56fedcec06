/** Sprint and quarterly goals: date-range validation, overlap detection,
    the "active, else next upcoming" lookup, and the create and update
    routes. The two goal tables share one implementation, selected by
    `GoalKind`. */
module Goals {
  import opened Common
  import opened Dates
  import opened Db

  /** `calculate_days_remaining(end, from)`: the number of days from `from`
      to `end`, or 0 when either string does not parse. */
  function DaysRemaining(end: Date, from: Date): (r: int)
    ensures !(Valid(end) && Valid(from)) ==> r == 0
    ensures Valid(end) && Valid(from) ==> AddDays(from, r) == Some(end)
    ensures Valid(end) && Valid(from) ==> (r > 0 <==> Before(from, end))
    ensures Valid(end) && Valid(from) ==> (r == 0 <==> from == end)
  {
    if Valid(end) && Valid(from) then
      var r := Ordinal(end) - Ordinal(from);
      OrdinalRange(end);
      AddDaysMoves(from, r);
      OrdinalInjective(AddDays(from, r).value, end);
      BeforeIsEarlier(from, end);
      r
    else 0
  }

  /** The two sprints the API tests query: 2025-11-01 .. 2025-11-14 seen
      from 2025-11-07 and from its first day. */
  lemma SprintExamples()
    ensures DaysRemaining(Date(2025, 11, 14), Date(2025, 11, 7)) == 7
    ensures DaysRemaining(Date(2025, 11, 14), Date(2025, 11, 1)) == 13
  {
  }

  /** `validate_date_range(start, end)`: both parse and `end` is strictly
      later than `start`. */
  function ValidateDateRange(start: Date, end: Date): (ok: bool)
    ensures ok <==> Valid(start) && Valid(end) && Before(start, end)
    ensures ok <==> Valid(start) && Valid(end) && DaysRemaining(end, start) > 0
  {
    if Valid(start) && Valid(end) then
      BeforeIsEarlier(start, end);
      Ordinal(end) > Ordinal(start)
    else false
  }

  /** The SQL filter of `check_overlap`: `start_date <= end` and
      `end_date >= start`, compared as strings. */
  predicate Overlaps(g: Goal, start: Date, end: Date) {
    NotAfter(g.start, end) && NotAfter(start, g.end)
  }

  /** `if exclude_id:` — an id of 0 excludes nothing. */
  predicate Excluded(k: int, exclude: Option<int>) {
    exclude.Some? && exclude.value != 0 && k == exclude.value
  }

  /** `check_overlap(db, model, start, end, exclude_id)` */
  function CheckOverlap(goals: map<int, Goal>, next: int, start: Date, end: Date, exclude: Option<int>): (r: bool)
    requires IdsBelow(goals.Keys, next)
    ensures r <==> exists k :: k in goals && !Excluded(k, exclude) && Overlaps(goals[k], start, end)
  {
    var hits := Filter(Scan(goals, next), k => k in goals && !Excluded(k, exclude) && Overlaps(goals[k], start, end));
    if |hits| > 0 then
      assert hits[0] in hits;
      true
    else
      assert forall k :: k in goals && !Excluded(k, exclude) && Overlaps(goals[k], start, end) ==> k in hits;
      false
  }

  /** For well-formed ranges, the string test of `check_overlap` holds
      exactly when the two ranges share a calendar day. */
  lemma {:induction false} OverlapIsCommonDay(g: Goal, start: Date, end: Date)
    requires NotAfter(g.start, g.end) && NotAfter(start, end)
    ensures Overlaps(g, start, end) <==>
      exists d: Date :: NotAfter(g.start, d) && NotAfter(d, g.end) && NotAfter(start, d) && NotAfter(d, end)
  {
    if Overlaps(g, start, end) {
      var d := if Key(g.start) <= Key(start) then start else g.start;
      assert NotAfter(g.start, d) && NotAfter(d, g.end) && NotAfter(start, d) && NotAfter(d, end);
    }
  }

  /** What the routes keep true of a goal table: every range is valid and no
      two goals overlap. */
  predicate GoalsOk(goals: map<int, Goal>) {
    (forall k :: k in goals ==> ValidateDateRange(goals[k].start, goals[k].end))
    && (forall i, j :: i in goals && j in goals && i != j ==> !Overlaps(goals[i], goals[j].start, goals[j].end))
  }

  /** `start_date <= date <= end_date` */
  predicate Active(g: Goal, d: Date) {
    NotAfter(g.start, d) && NotAfter(d, g.end)
  }

  /** `start_date > date` */
  predicate Upcoming(g: Goal, d: Date) {
    Before(d, g.start)
  }

  /** In a table whose goals do not overlap, at most one goal is active on
      any date, so "the first active goal" is the active goal. */
  lemma ActiveGoalUnique(goals: map<int, Goal>, d: Date, i: int, j: int)
    requires GoalsOk(goals)
    requires i in goals && j in goals && Active(goals[i], d) && Active(goals[j], d)
    ensures i == j
  {
    if i != j {
      assert Overlaps(goals[i], goals[j].start, goals[j].end);
    }
  }

  function KindName(kind: GoalKind): string {
    if kind == Sprint then "sprint" else "quarterly"
  }

  function NotFoundDetail(kind: GoalKind): string {
    if kind == Sprint then "Sprint goal not found" else "Quarterly goal not found"
  }

  const RangeDetail := "end_date must be after start_date"

  function OverlapDetail(kind: GoalKind, start: Date, end: Date): string {
    "A " + KindName(kind) + " goal already exists that overlaps with " + Format(start) + " to " + Format(end)
  }

  /** The response body of a goal route. */
  datatype GoalView = GoalView(id: int, goal: Goal, daysRemaining: int)

  /** `get_sprint_for_date` / `get_quarterly_for_date`: the first goal (in
      scan order) active on `d`; failing that, the upcoming goal with the
      earliest start; failing that, 404. Days remaining are counted from `d`. */
  function GoalForDate(goals: map<int, Goal>, next: int, kind: GoalKind, d: Date): (r: Result<GoalView>)
    requires IdsBelow(goals.Keys, next)
    ensures r.Ok? ==> r.value.id in goals && r.value.goal == goals[r.value.id]
    ensures r.Ok? ==> r.value.daysRemaining == DaysRemaining(r.value.goal.end, d)
    ensures r.Ok? ==> Active(r.value.goal, d) || Upcoming(r.value.goal, d)
    ensures r.Err? ==> r.error == HttpError(404, "No " + KindName(kind) + " goal found for this date")
  {
    var ids := Scan(goals, next);
    var active := FirstWhere(ids, k => k in goals && Active(goals[k], d));
    if active.Some? then
      var g := goals[active.value];
      Ok(GoalView(active.value, g, DaysRemaining(g.end, d)))
    else
      var upcoming := Filter(ids, k => k in goals && Upcoming(goals[k], d));
      var first := FirstMin(upcoming, k => if k in goals then Key(goals[k].start) else 0);
      if first.Some? then
        var g := goals[first.value];
        Ok(GoalView(first.value, g, DaysRemaining(g.end, d)))
      else
        Err(HttpError(404, "No " + KindName(kind) + " goal found for this date"))
  }

  /** An active goal wins: when some goal covers the date, the goal found
      covers it. */
  lemma GoalForDatePrefersActive(goals: map<int, Goal>, next: int, kind: GoalKind, d: Date)
    requires IdsBelow(goals.Keys, next)
    ensures (exists k :: k in goals && Active(goals[k], d)) ==>
      GoalForDate(goals, next, kind, d).Ok? && Active(GoalForDate(goals, next, kind, d).value.goal, d)
  {
    var ids := Scan(goals, next);
    if k :| k in goals && Active(goals[k], d) {
      assert k in ids;
    }
  }

  /** Otherwise the goal found is the upcoming goal with the earliest
      start. */
  lemma GoalForDateNextUpcoming(goals: map<int, Goal>, next: int, kind: GoalKind, d: Date)
    requires IdsBelow(goals.Keys, next)
    ensures var r := GoalForDate(goals, next, kind, d);
      r.Ok? && !Active(r.value.goal, d) ==>
        Upcoming(r.value.goal, d)
        && (forall k :: k in goals ==> !Active(goals[k], d))
        && (forall k :: k in goals && Upcoming(goals[k], d) ==> Key(r.value.goal.start) <= Key(goals[k].start))
  {
    var r := GoalForDate(goals, next, kind, d);
    var ids := Scan(goals, next);
    var active := FirstWhere(ids, k => k in goals && Active(goals[k], d));
    if r.Ok? && !Active(r.value.goal, d) {
      assert active.None?;
      forall k | k in goals ensures !Active(goals[k], d) {
        assert k in ids;
      }
      var upcoming := Filter(ids, k => k in goals && Upcoming(goals[k], d));
      var first := FirstMin(upcoming, k => if k in goals then Key(goals[k].start) else 0);
      assert first == Some(r.value.id);
      forall k | k in goals && Upcoming(goals[k], d) ensures Key(r.value.goal.start) <= Key(goals[k].start) {
        assert k in ids;
        assert k in upcoming;
      }
    }
  }

  /** The route answers 404 exactly when no goal is active on the date or
      starts after it. */
  lemma GoalForDateMisses(goals: map<int, Goal>, next: int, kind: GoalKind, d: Date)
    requires IdsBelow(goals.Keys, next)
    ensures GoalForDate(goals, next, kind, d).Err? <==> forall k :: k in goals ==> !Active(goals[k], d) && !Upcoming(goals[k], d)
  {
    var ids := Scan(goals, next);
    var upcoming := Filter(ids, k => k in goals && Upcoming(goals[k], d));
    forall k | k in goals ensures k in ids {
    }
    if GoalForDate(goals, next, kind, d).Err? {
      forall k | k in goals ensures !Upcoming(goals[k], d) {
        assert k in ids;
        assert Upcoming(goals[k], d) ==> k in upcoming;
      }
    }
  }

  /** With the table invariant, the goal found for a date that some goal
      covers is that goal. */
  lemma GoalForDateIsTheActiveGoal(goals: map<int, Goal>, next: int, kind: GoalKind, d: Date, k: int)
    requires IdsBelow(goals.Keys, next) && GoalsOk(goals)
    requires k in goals && Active(goals[k], d)
    ensures GoalForDate(goals, next, kind, d).Ok? && GoalForDate(goals, next, kind, d).value.id == k
  {
    GoalForDatePrefersActive(goals, next, kind, d);
    var r := GoalForDate(goals, next, kind, d);
    ActiveGoalUnique(goals, d, r.value.id, k);
  }

  /** Inserting a goal that is valid and overlaps none keeps the table
      invariant. */
  lemma GoalsOkInsert(goals: map<int, Goal>, id: int, g: Goal)
    requires id !in goals && ValidateDateRange(g.start, g.end)
    requires forall k :: k in goals ==> !Overlaps(goals[k], g.start, g.end)
    ensures GoalsOk(goals) ==> GoalsOk(goals[id := g])
  {
  }

  /** Replacing a goal by one that is valid and overlaps no other goal keeps
      the table invariant. */
  lemma GoalsOkReplace(goals: map<int, Goal>, id: int, g: Goal)
    requires id in goals && ValidateDateRange(g.start, g.end)
    requires forall k :: k in goals && k != id ==> !Overlaps(goals[k], g.start, g.end)
    ensures GoalsOk(goals) ==> GoalsOk(goals[id := g])
  {
  }

  /** `create_sprint_goal` / `create_quarterly_goal` on the tables `t`. */
  function CreateGoalIn(t: Tables, kind: GoalKind, text: string, start: Date, end: Date, now: int)
    : (o: Outcome<GoalView>)
    requires Consistent(t)
    ensures Consistent(o.tables)
    ensures o.result.Err? ==> o.tables == t
    ensures !ValidateDateRange(start, end) ==> o.result == Err(HttpError(400, RangeDetail))
    ensures o.result.Ok? <==> (ValidateDateRange(start, end)
      && forall k :: k in GoalTable(t, kind) ==> !Overlaps(GoalTable(t, kind)[k], start, end))
    ensures o.result.Ok? ==>
      var v := o.result.value;
      v.id !in GoalTable(t, kind) && v.goal == Goal(text, start, end, now, now)
      && v.daysRemaining == DaysRemaining(end, start) && v.daysRemaining > 0
      && o.tables == WithGoals(t.(nextId := t.nextId + 1), kind, GoalTable(t, kind)[v.id := v.goal])
    ensures GoalsOk(GoalTable(t, kind)) ==> GoalsOk(GoalTable(o.tables, kind))
  {
    var goals := GoalTable(t, kind);
    if !ValidateDateRange(start, end) then Outcome(Err(HttpError(400, RangeDetail)), t)
    else if CheckOverlap(goals, t.nextId, start, end, None) then
      Outcome(Err(HttpError(400, OverlapDetail(kind, start, end))), t)
    else
      var id := t.nextId;
      var g := Goal(text, start, end, now, now);
      var u := t.(nextId := id + 1);
      GoalsOkInsert(goals, id, g);
      BumpConsistent(t);
      GoalsConsistent(u, kind, goals[id := g]);
      Outcome(Ok(GoalView(id, g, DaysRemaining(end, start))), WithGoals(u, kind, goals[id := g]))
  }

  /** The success case of `CreateGoalIn`, for the route. */
  lemma CreateGoalInAdds(t: Tables, kind: GoalKind, text: string, start: Date, end: Date, now: int)
    requires Consistent(t) && ValidateDateRange(start, end) && !CheckOverlap(GoalTable(t, kind), t.nextId, start, end, None)
    ensures var g := Goal(text, start, end, now, now);
      CreateGoalIn(t, kind, text, start, end, now)
      == Outcome(Ok(GoalView(t.nextId, g, DaysRemaining(end, start))),
                 WithGoals(t.(nextId := t.nextId + 1), kind, GoalTable(t, kind)[t.nextId := g]))
  {
  }

  /** The route: it changes the session exactly as `CreateGoalIn` says. */
  method CreateGoal(db: Store, kind: GoalKind, text: string, start: Date, end: Date, now: int)
    returns (r: Result<GoalView>)
    requires db.Valid()
    modifies db
    ensures Outcome(r, db.State()) == CreateGoalIn(old(db.State()), kind, text, start, end, now)
    ensures db.Valid()
  {
    ghost var t := db.State();
    var goals := GoalTable(db.State(), kind);
    if !ValidateDateRange(start, end) {
      return Err(HttpError(400, RangeDetail));
    }
    if CheckOverlap(goals, db.nextId, start, end, None) {
      return Err(HttpError(400, OverlapDetail(kind, start, end)));
    }
    CreateGoalInAdds(t, kind, text, start, end, now);
    var id := db.FreshId();
    var g := Goal(text, start, end, now, now);
    db.SetGoals(kind, goals[id := g]);
    r := Ok(GoalView(id, g, DaysRemaining(end, start)));
  }

  /** The goal after an update: each given field replaces the stored one. */
  function Merged(g: Goal, text: Option<string>, start: Option<Date>, end: Option<Date>, now: int): Goal {
    Goal(
      if text.Some? then text.value else g.text,
      if start.Some? then start.value else g.start,
      if end.Some? then end.value else g.end,
      g.createdAt, now)
  }

  /** `update_sprint_goal` / `update_quarterly_goal` on the tables `t`: the
      merged range is validated and checked for overlap with every other
      goal; on failure nothing is committed. Days remaining are counted
      from `today`. */
  function UpdateGoalIn(t: Tables, kind: GoalKind, id: int, text: Option<string>, start: Option<Date>,
                        end: Option<Date>, now: int, today: Date)
    : (o: Outcome<GoalView>)
    requires Consistent(t)
    ensures Consistent(o.tables)
    ensures o.result.Err? ==> o.tables == t
    ensures id !in GoalTable(t, kind) ==> o.result == Err(HttpError(404, NotFoundDetail(kind)))
    ensures o.result.Ok? <==> (id in GoalTable(t, kind)
      && var g := Merged(GoalTable(t, kind)[id], text, start, end, now);
         ValidateDateRange(g.start, g.end)
         && forall k :: k in GoalTable(t, kind) && k != id ==> !Overlaps(GoalTable(t, kind)[k], g.start, g.end))
    ensures o.result.Ok? ==>
      var v := o.result.value;
      v.id == id && v.goal == Merged(GoalTable(t, kind)[id], text, start, end, now)
      && v.daysRemaining == DaysRemaining(v.goal.end, today)
      && o.tables == WithGoals(t, kind, GoalTable(t, kind)[id := v.goal])
    ensures GoalsOk(GoalTable(t, kind)) ==> GoalsOk(GoalTable(o.tables, kind))
  {
    var goals := GoalTable(t, kind);
    if id !in goals then Outcome(Err(HttpError(404, NotFoundDetail(kind))), t)
    else
      var g := Merged(goals[id], text, start, end, now);
      if !ValidateDateRange(g.start, g.end) then Outcome(Err(HttpError(400, RangeDetail)), t)
      else if CheckOverlap(goals, t.nextId, g.start, g.end, Some(id)) then
        Outcome(Err(HttpError(400, OverlapDetail(kind, g.start, g.end))), t)
      else
        GoalsOkReplace(goals, id, g);
        GoalsConsistent(t, kind, goals[id := g]);
        Outcome(Ok(GoalView(id, g, DaysRemaining(g.end, today))), WithGoals(t, kind, goals[id := g]))
  }

  /** The success case of `UpdateGoalIn`, for the route. */
  lemma UpdateGoalInReplaces(t: Tables, kind: GoalKind, id: int, text: Option<string>, start: Option<Date>,
                             end: Option<Date>, now: int, today: Date)
    requires Consistent(t) && id in GoalTable(t, kind)
    requires var g := Merged(GoalTable(t, kind)[id], text, start, end, now);
      ValidateDateRange(g.start, g.end) && !CheckOverlap(GoalTable(t, kind), t.nextId, g.start, g.end, Some(id))
    ensures var g := Merged(GoalTable(t, kind)[id], text, start, end, now);
      UpdateGoalIn(t, kind, id, text, start, end, now, today)
      == Outcome(Ok(GoalView(id, g, DaysRemaining(g.end, today))), WithGoals(t, kind, GoalTable(t, kind)[id := g]))
  {
  }

  /** The route: it changes the session exactly as `UpdateGoalIn` says. */
  method UpdateGoal(db: Store, kind: GoalKind, id: int, text: Option<string>, start: Option<Date>,
                    end: Option<Date>, now: int, today: Date)
    returns (r: Result<GoalView>)
    requires db.Valid()
    modifies db
    ensures Outcome(r, db.State()) == UpdateGoalIn(old(db.State()), kind, id, text, start, end, now, today)
    ensures db.Valid()
  {
    ghost var t := db.State();
    var goals := GoalTable(db.State(), kind);
    if id !in goals {
      return Err(HttpError(404, NotFoundDetail(kind)));
    }
    var g := Merged(goals[id], text, start, end, now);
    if !ValidateDateRange(g.start, g.end) {
      return Err(HttpError(400, RangeDetail));
    }
    if CheckOverlap(goals, db.nextId, g.start, g.end, Some(id)) {
      return Err(HttpError(400, OverlapDetail(kind, g.start, g.end)));
    }
    UpdateGoalInReplaces(t, kind, id, text, start, end, now, today);
    db.SetGoals(kind, goals[id := g]);
    r := Ok(GoalView(id, g, DaysRemaining(g.end, today)));
  }
}
