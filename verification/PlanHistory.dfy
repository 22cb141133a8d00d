/**
  The plan catalog and its versions (rt-app/core-go/subscriptions/service.go, settings.go). Versions
  "0.0.n" are the numbers n, a plan's content is one value, and whether a saved catalog passes the
  other validations is an input. The history of every plan is gapless and a version never names two
  contents, whatever is saved, edited, restored, linked and published.
*/
module PlanHistory {
  import opened Prelude

  type Content = string

  datatype Plan = Plan(id: string, content: Content, version: Option<nat>, enabled: bool, archived: bool, managed: bool,
                       price: Option<string>, product: Option<string>)

  /** A publication that was begun, with the plan as it was then; ids are places among all that were begun. */
  datatype Publication = Publication(id: nat, plan: Plan)

  datatype Catalog = Catalog(
    version: nat, plans: seq<Plan>, pending: Option<Publication>, history: map<(string, nat), Plan>, begun: seq<Publication>)

  datatype Refusal = Stale | BusyPublishing | PlanRemoved | Invalid | PlanNotFound | VersionNotFound | NotPending

  datatype Answer = Ok | Refused(why: Refusal)

  function VersionOf(p: Plan): nat {
    p.version.GetOr(1)
  }

  function FindPlan(plans: seq<Plan>, id: string): (r: Option<Plan>)
    ensures r.Some? ==> r.value in plans && r.value.id == id
    ensures r.None? ==> forall p :: p in plans ==> p.id != id
  {
    if plans == [] then None else if plans[0].id == id then Some(plans[0]) else FindPlan(plans[1..], id)
  }

  predicate DistinctIds(plans: seq<Plan>) {
    forall i, j :: 0 <= i < j < |plans| ==> plans[i].id != plans[j].id
  }

  // ---- saving ----

  /** A plan gets a new version when its content changes, or when it is saved as restored. */
  predicate Changes(previous: seq<Plan>, plan: Plan, restored: Option<string>) {
    var prior := FindPlan(previous, plan.id);
    prior.Some? && (restored == Some(plan.id) || prior.value.content != plan.content)
  }

  function Saved(previous: seq<Plan>, plan: Plan, restored: Option<string>): Plan {
    var prior := FindPlan(previous, plan.id);
    var version := if prior.Some? then VersionOf(prior.value) else 1;
    var changed := Changes(previous, plan, restored);
    plan.(version := Some(if changed then version + 1 else version),
          managed := prior.Some? && prior.value.managed,
          price := if !changed && prior.Some? then prior.value.price else None,
          product := if !changed && prior.Some? then prior.value.product else None)
  }

  function SavedPlans(previous: seq<Plan>, plans: seq<Plan>, restored: Option<string>): (r: seq<Plan>)
    ensures |r| == |plans| && forall i :: 0 <= i < |r| ==> r[i] == Saved(previous, plans[i], restored)
  {
    seq(|plans|, i requires 0 <= i < |plans| => Saved(previous, plans[i], restored))
  }

  /** The history rows a save creates: each changed plan as it was, under the version it had. */
  function Archived(history: map<(string, nat), Plan>, previous: seq<Plan>, plans: seq<Plan>, restored: Option<string>): map<(string, nat), Plan> {
    if plans == [] then history
    else
      var before := Archived(history, previous, plans[..|plans| - 1], restored);
      var plan := plans[|plans| - 1];
      if Changes(previous, plan, restored) then before[(plan.id, VersionOf(FindPlan(previous, plan.id).value)) := FindPlan(previous, plan.id).value] else before
  }

  /** Whether any of those rows exists already: then the transaction conflicts. */
  predicate Collides(history: map<(string, nat), Plan>, previous: seq<Plan>, plans: seq<Plan>, restored: Option<string>) {
    exists i :: 0 <= i < |plans| && Changes(previous, plans[i], restored) && (plans[i].id, VersionOf(FindPlan(previous, plans[i].id).value)) in history
  }

  predicate KeepsAll(previous: seq<Plan>, plans: seq<Plan>) {
    forall i :: 0 <= i < |previous| ==> FindPlan(plans, previous[i].id).Some?
  }

  function SaveRefusal(c: Catalog, version: nat, plans: seq<Plan>, valid: bool): Option<Refusal> {
    if !valid || !DistinctIds(plans) then Some(Invalid)
    else if version != c.version then Some(Stale)
    else if c.pending.Some? then Some(BusyPublishing)
    else if !KeepsAll(c.plans, plans) then Some(PlanRemoved)
    else None
  }

  function Save(c: Catalog, version: nat, plans: seq<Plan>, restored: Option<string>, valid: bool): (Answer, Catalog) {
    var refusal := SaveRefusal(c, version, plans, valid);
    if refusal.Some? then (Refused(refusal.value), c)
    else if Collides(c.history, c.plans, plans, restored) then (Refused(Stale), c)
    else (Ok, c.(version := c.version + 1, plans := SavedPlans(c.plans, plans, restored), history := Archived(c.history, c.plans, plans, restored)))
  }

  // ---- editing ----

  function Replaced(plans: seq<Plan>, id: string, plan: Plan): (r: seq<Plan>)
    ensures |r| == |plans| && forall i :: 0 <= i < |r| ==> r[i] == if plans[i].id == id then plan else plans[i]
  {
    seq(|plans|, i requires 0 <= i < |plans| => if plans[i].id == id then plan else plans[i])
  }

  /** Stripe ids attached to plans; nothing that makes a version changes. */
  function Linked(plans: seq<Plan>, links: map<string, (string, string)>): (r: seq<Plan>)
    ensures |r| == |plans|
    ensures forall i :: 0 <= i < |r| ==>
              r[i] == if plans[i].id in links then plans[i].(product := Some(links[plans[i].id].0), price := Some(links[plans[i].id].1)) else plans[i]
  {
    seq(|plans|, i requires 0 <= i < |plans| =>
      if plans[i].id in links then plans[i].(product := Some(links[plans[i].id].0), price := Some(links[plans[i].id].1)) else plans[i])
  }

  datatype Call =
    | SaveAll(version: nat, plans: seq<Plan>, valid: bool)
    | Create(version: nat, plan: Plan, valid: bool)
    | Update(version: nat, id: string, plan: Plan, valid: bool)
    | SetArchived(version: nat, id: string, archived: bool, valid: bool)
    | NewVersion(version: nat, id: string, valid: bool)
    | Restore(version: nat, id: string, from: nat, valid: bool)
    | Link(links: map<string, (string, string)>, valid: bool)
    | BeginPublish(version: nat, id: string)
    | FinishPublish(publication: nat, product: string, price: string)

  function OnPlan(c: Catalog, version: nat, id: string, plan: Plan, restored: Option<string>, valid: bool): (Answer, Catalog) {
    if version != c.version then (Refused(Stale), c)
    else if FindPlan(c.plans, id).None? then (Refused(PlanNotFound), c)
    else Save(c, version, Replaced(c.plans, id, plan.(id := id)), restored, valid)
  }

  function Apply(c: Catalog, call: Call): (Answer, Catalog) {
    match call
    case SaveAll(version, plans, valid) => Save(c, version, plans, None, valid)
    case Create(version, plan, valid) =>
      if version != c.version then (Refused(Stale), c) else Save(c, version, c.plans + [plan.(enabled := false)], None, valid)
    case Update(version, id, plan, valid) => OnPlan(c, version, id, plan, None, valid)
    case SetArchived(version, id, archived, valid) =>
      var current := FindPlan(c.plans, id);
      if current.None? then (Refused(if version != c.version then Stale else PlanNotFound), c)
      else OnPlan(c, version, id, current.value.(archived := archived, enabled := false), None, valid)
    case NewVersion(version, id, valid) =>
      var current := FindPlan(c.plans, id);
      if current.None? then (Refused(if version != c.version then Stale else PlanNotFound), c)
      else OnPlan(c, version, id, current.value, Some(id), valid)
    case Restore(version, id, from, valid) =>
      if (id, from) !in c.history then (Refused(VersionNotFound), c)
      else
        var current := FindPlan(c.plans, id);
        if current.None? then (Refused(if version != c.version then Stale else PlanNotFound), c)
        else OnPlan(c, version, id, c.history[(id, from)].(enabled := current.value.enabled, archived := current.value.archived), Some(id), valid)
    case Link(links, valid) =>
      if c.pending.Some? then (Refused(BusyPublishing), c)
      else if exists id :: id in links && FindPlan(c.plans, id).None? then (Refused(PlanNotFound), c)
      else if Linked(c.plans, links) == c.plans then (Ok, c)
      else if !valid then (Refused(Invalid), c)
      else (Ok, c.(version := c.version + 1, plans := Linked(c.plans, links)))
    case BeginPublish(version, id) =>
      var current := FindPlan(c.plans, id);
      if c.pending.Some? then (Refused(BusyPublishing), c)
      else if version != c.version then (Refused(Stale), c)
      else if current.None? then (Refused(PlanNotFound), c)
      else
        var publication := Publication(|c.begun|, current.value);
        (Ok, c.(version := c.version + 1, pending := Some(publication), begun := c.begun + [publication]))
    case FinishPublish(k, product, price) =>
      if k >= |c.begun| || c.pending.None? then (Ok, c)
      else if c.pending.value.id != c.begun[k].id then (Refused(NotPending), c)
      else
        var plan := c.begun[k].plan;
        (Ok, c.(version := c.version + 1, pending := None,
                plans := Replaced(c.plans, plan.id, plan.(price := Some(price), product := Some(product), managed := true))))
  }

  // ---- histories ----

  function Run(c: Catalog, calls: seq<Call>): Catalog {
    if calls == [] then c else Apply(Run(c, calls[..|calls| - 1]), calls[|calls| - 1]).1
  }

  /** Which content every version of every plan has: told by the history, and by the plans themselves. */
  function ContentOf(c: Catalog, id: string, version: nat): Option<Content> {
    var current := FindPlan(c.plans, id);
    if current.Some? && VersionOf(current.value) == version then Some(current.value.content)
    else if (id, version) in c.history then Some(c.history[(id, version)].content)
    else None
  }

  function CurrentVersion(c: Catalog, id: string): nat {
    var current := FindPlan(c.plans, id);
    if current.Some? then VersionOf(current.value) else 0
  }

  /** The history of a plan holds exactly the versions before its current one, each under its own number. */
  ghost predicate Gapless(c: Catalog) {
    && DistinctIds(c.plans)
    && (forall i :: 0 <= i < |c.plans| ==> VersionOf(c.plans[i]) >= 1)
    && (forall id: string, v: nat :: (id, v) in c.history <==> 1 <= v < CurrentVersion(c, id))
    && (forall id: string, v: nat :: (id, v) in c.history ==> c.history[(id, v)].id == id && VersionOf(c.history[(id, v)]) == v)
  }

  /** A pending publication carries the plan as it still is. */
  ghost predicate PublishesCurrent(c: Catalog) {
    && (forall k :: 0 <= k < |c.begun| ==> c.begun[k].id == k)
    && (c.pending.Some? ==> c.pending.value.id < |c.begun| && c.begun[c.pending.value.id] == c.pending.value
                            && FindPlan(c.plans, c.pending.value.plan.id) == Some(c.pending.value.plan))
  }

  ghost predicate Orderly(c: Catalog) {
    Gapless(c) && PublishesCurrent(c)
  }

  /** What a call may do to versions: none disappears, none changes its content. */
  ghost predicate Extends(before: Catalog, after: Catalog) {
    forall id: string, v: nat :: ContentOf(before, id, v).Some? ==> ContentOf(after, id, v) == ContentOf(before, id, v)
  }

  // ---- lookups ----

  lemma {:induction false} FoundAt(plans: seq<Plan>, i: nat)
    requires DistinctIds(plans) && i < |plans|
    ensures FindPlan(plans, plans[i].id) == Some(plans[i])
  {
    if i > 0 {
      FoundAt(plans[1..], i - 1);
    }
  }

  /** Plans changed one by one, ids kept, are found where they were. */
  lemma {:induction false} FoundInParallel(plans: seq<Plan>, others: seq<Plan>, id: string)
    requires |plans| == |others| && forall i :: 0 <= i < |plans| ==> plans[i].id == others[i].id
    ensures FindPlan(plans, id).Some? == FindPlan(others, id).Some?
    ensures FindPlan(plans, id).Some? ==> exists i :: 0 <= i < |plans| && plans[i] == FindPlan(plans, id).value && others[i] == FindPlan(others, id).value
  {
    if plans != [] {
      if plans[0].id != id {
        FoundInParallel(plans[1..], others[1..], id);
        if FindPlan(plans, id).Some? {
          var i :| 0 <= i < |plans| - 1 && plans[1..][i] == FindPlan(plans[1..], id).value && others[1..][i] == FindPlan(others[1..], id).value;
          assert plans[i + 1] == FindPlan(plans, id).value && others[i + 1] == FindPlan(others, id).value;
        }
      } else {
        assert plans[0] == FindPlan(plans, id).value && others[0] == FindPlan(others, id).value;
      }
    }
  }

  /** The rows a save creates, one per plan that changes. */
  lemma {:induction false} ArchivedRows(history: map<(string, nat), Plan>, previous: seq<Plan>, plans: seq<Plan>, restored: Option<string>, id: string, v: nat)
    requires DistinctIds(plans)
    ensures var plan, prior := FindPlan(plans, id), FindPlan(previous, id);
            Lookup(Archived(history, previous, plans, restored), (id, v)) ==
            if plan.Some? && Changes(previous, plan.value, restored) && v == VersionOf(prior.value) then prior else Lookup(history, (id, v))
  {
    if plans != [] {
      var n := |plans| - 1;
      ArchivedRows(history, previous, plans[..n], restored, id, v);
      FoundInFront(plans, id);
    }
  }

  lemma {:induction false} FoundInFront(plans: seq<Plan>, id: string)
    requires plans != []
    ensures var front, last := plans[..|plans| - 1], plans[|plans| - 1];
            FindPlan(plans, id) == if FindPlan(front, id).Some? then FindPlan(front, id) else if last.id == id then Some(last) else None
    ensures DistinctIds(plans) && plans[|plans| - 1].id == id ==> FindPlan(plans[..|plans| - 1], id).None?
  {
    if |plans| > 1 {
      FoundInFront(plans[1..], id);
      assert plans[1..][..|plans| - 2] == plans[..|plans| - 1][1..];
    }
    if FindPlan(plans[..|plans| - 1], id).Some? {
      var x := FindPlan(plans[..|plans| - 1], id).value;
      var i :| 0 <= i < |plans| - 1 && plans[i] == x;
    }
  }

  lemma SavedFound(previous: seq<Plan>, plans: seq<Plan>, restored: Option<string>, id: string)
    ensures FindPlan(SavedPlans(previous, plans, restored), id) ==
            if FindPlan(plans, id).Some? then Some(Saved(previous, FindPlan(plans, id).value, restored)) else None
  {
    FoundInParallel(plans, SavedPlans(previous, plans, restored), id);
  }

  lemma KeptPlanIsFound(previous: seq<Plan>, plans: seq<Plan>, id: string)
    requires KeepsAll(previous, plans) && FindPlan(previous, id).Some?
    ensures FindPlan(plans, id).Some?
  {
    var i :| 0 <= i < |previous| && previous[i] == FindPlan(previous, id).value;
  }

  /** The history create of a save never meets an existing row. */
  lemma SavesNeverCollide(c: Catalog, plans: seq<Plan>, restored: Option<string>)
    requires Gapless(c)
    ensures !Collides(c.history, c.plans, plans, restored)
  {}

  lemma SaveIsOrderly(c: Catalog, version: nat, plans: seq<Plan>, restored: Option<string>, valid: bool)
    requires Orderly(c)
    ensures var (answer, after) := Save(c, version, plans, restored, valid);
            && Orderly(after) && Extends(c, after)
            && (answer.Ok? <==> SaveRefusal(c, version, plans, valid).None?)
  {
    hide Archived, FindPlan, Changes;
    var (answer, after) := Save(c, version, plans, restored, valid);
    SavesNeverCollide(c, plans, restored);
    if answer.Ok? {
      forall id: string, v: nat
        ensures (id, v) in after.history <==> 1 <= v < CurrentVersion(after, id)
        ensures (id, v) in after.history ==> after.history[(id, v)].id == id && VersionOf(after.history[(id, v)]) == v
        ensures ContentOf(c, id, v).Some? ==> ContentOf(after, id, v) == ContentOf(c, id, v)
      {
        SavedOne(c, plans, restored, id, v);
      }
      SavedIds(c.plans, plans, restored);
    }
  }

  lemma SavedIds(previous: seq<Plan>, plans: seq<Plan>, restored: Option<string>)
    requires DistinctIds(plans)
    ensures DistinctIds(SavedPlans(previous, plans, restored))
    ensures (forall p :: p in previous ==> VersionOf(p) >= 1) ==>
              forall i :: 0 <= i < |plans| ==> VersionOf(SavedPlans(previous, plans, restored)[i]) >= 1
  {}

  /** One plan and one version, before and after a save. */
  lemma SavedOne(c: Catalog, plans: seq<Plan>, restored: Option<string>, id: string, v: nat)
    requires Gapless(c) && DistinctIds(plans) && KeepsAll(c.plans, plans)
    ensures var after := c.(plans := SavedPlans(c.plans, plans, restored), history := Archived(c.history, c.plans, plans, restored));
            && ((id, v) in after.history <==> 1 <= v < CurrentVersion(after, id))
            && ((id, v) in after.history ==> after.history[(id, v)].id == id && VersionOf(after.history[(id, v)]) == v)
            && (ContentOf(c, id, v).Some? ==> ContentOf(after, id, v) == ContentOf(c, id, v))
  {
    hide Archived, FindPlan;
    ArchivedRows(c.history, c.plans, plans, restored, id, v);
    SavedFound(c.plans, plans, restored, id);
    if FindPlan(c.plans, id).Some? {
      KeptPlanIsFound(c.plans, plans, id);
      var i :| 0 <= i < |c.plans| && c.plans[i] == FindPlan(c.plans, id).value;
    }
    assert (id, v) in c.history <==> 1 <= v < CurrentVersion(c, id);
  }

  /** A change that keeps ids, versions and contents keeps everything the history is about. */
  lemma SameVersionsAreOrderly(c: Catalog, plans: seq<Plan>)
    requires Gapless(c) && |plans| == |c.plans|
    requires forall i :: 0 <= i < |plans| ==> plans[i].id == c.plans[i].id && VersionOf(plans[i]) == VersionOf(c.plans[i]) && plans[i].content == c.plans[i].content
    ensures Gapless(c.(plans := plans)) && Extends(c, c.(plans := plans))
  {
    hide FindPlan;
    var after := c.(plans := plans);
    forall id: string
      ensures CurrentVersion(after, id) == CurrentVersion(c, id)
      ensures forall v: nat :: ContentOf(after, id, v) == ContentOf(c, id, v)
    {
      FoundInParallel(c.plans, plans, id);
    }
  }

  lemma OnPlanIsOrderly(c: Catalog, version: nat, id: string, plan: Plan, restored: Option<string>, valid: bool)
    requires Orderly(c)
    ensures var (answer, after) := OnPlan(c, version, id, plan, restored, valid); Orderly(after) && Extends(c, after)
  {
    hide Save, Orderly, Extends;
    SaveIsOrderly(c, version, Replaced(c.plans, id, plan.(id := id)), restored, valid);
    NothingChanges(c);
  }

  lemma NothingChanges(c: Catalog)
    ensures Extends(c, c)
  {}

  /** Every call keeps the histories gapless, changes no version's content, and loses none. */
  lemma CallIsOrderly(c: Catalog, call: Call)
    requires Orderly(c)
    ensures Orderly(Apply(c, call).1) && Extends(c, Apply(c, call).1)
  {
    hide Save, OnPlan, Gapless, Extends, Linked, FindPlan;
    NothingChanges(c);
    match call
    case SaveAll(version, plans, valid) => SaveIsOrderly(c, version, plans, None, valid);
    case Create(version, plan, valid) => SaveIsOrderly(c, version, c.plans + [plan.(enabled := false)], None, valid);
    case Update(version, id, plan, valid) => OnPlanIsOrderly(c, version, id, plan, None, valid);
    case SetArchived(version, id, archived, valid) =>
      if FindPlan(c.plans, id).Some? {
        OnPlanIsOrderly(c, version, id, FindPlan(c.plans, id).value.(archived := archived, enabled := false), None, valid);
      }
    case NewVersion(version, id, valid) =>
      if FindPlan(c.plans, id).Some? {
        OnPlanIsOrderly(c, version, id, FindPlan(c.plans, id).value, Some(id), valid);
      }
    case Restore(version, id, from, valid) =>
      if (id, from) in c.history && FindPlan(c.plans, id).Some? {
        var current := FindPlan(c.plans, id).value;
        OnPlanIsOrderly(c, version, id, c.history[(id, from)].(enabled := current.enabled, archived := current.archived), Some(id), valid);
      }
    case Link(links, valid) =>
      if c.pending.None? {
        LinkIsOrderly(c, links);
      }
    case BeginPublish(version, id) => BeginIsOrderly(c, version, id);
    case FinishPublish(k, product, price) => FinishIsOrderly(c, k, product, price);
  }

  lemma LinkIsOrderly(c: Catalog, links: map<string, (string, string)>)
    requires Orderly(c) && c.pending.None?
    ensures var after := c.(version := c.version + 1, plans := Linked(c.plans, links)); Orderly(after) && Extends(c, after)
  {
    SameVersionsAreOrderly(c, Linked(c.plans, links));
  }

  lemma BeginIsOrderly(c: Catalog, version: nat, id: string)
    requires Orderly(c)
    ensures Orderly(Apply(c, BeginPublish(version, id)).1) && Extends(c, Apply(c, BeginPublish(version, id)).1)
  {
    hide FindPlan;
    FoundHasId(c.plans, id);
  }

  lemma FoundHasId(plans: seq<Plan>, id: string)
    ensures FindPlan(plans, id).Some? ==> FindPlan(plans, FindPlan(plans, id).value.id) == FindPlan(plans, id)
  {}

  lemma FinishIsOrderly(c: Catalog, k: nat, product: string, price: string)
    requires Orderly(c)
    ensures Orderly(Apply(c, FinishPublish(k, product, price)).1) && Extends(c, Apply(c, FinishPublish(k, product, price)).1)
  {
    hide FindPlan;
    if k < |c.begun| && c.pending.Some? && c.pending.value.id == k {
      var plan := c.begun[k].plan;
      var plans := Replaced(c.plans, plan.id, plan.(price := Some(price), product := Some(product), managed := true));
      forall i | 0 <= i < |plans|
        ensures plans[i].id == c.plans[i].id && VersionOf(plans[i]) == VersionOf(c.plans[i]) && plans[i].content == c.plans[i].content
      {
        FoundAt(c.plans, i);
      }
      SameVersionsAreOrderly(c, plans);
    }
  }

  // ---- every sequence of calls ----

  lemma {:induction false} RunIsOrderly(c: Catalog, calls: seq<Call>)
    requires Orderly(c)
    ensures Orderly(Run(c, calls))
  {
    hide Apply, Orderly;
    if calls != [] {
      var n := |calls| - 1;
      RunIsOrderly(c, calls[..n]);
      CallIsOrderly(Run(c, calls[..n]), calls[n]);
    }
  }

  /**
    After any sequence of calls the history of every plan holds exactly the versions before the
    current one; and a version, once there, names the same content for ever.
  */
  lemma {:induction false} HistoriesAreGapless(c: Catalog, calls: seq<Call>, more: seq<Call>)
    requires Orderly(c)
    ensures Orderly(Run(c, calls + more)) && Extends(Run(c, calls), Run(c, calls + more))
  {
    hide Apply, Orderly;
    RunIsOrderly(c, calls + more);
    if more == [] {
      assert calls + more == calls;
    } else {
      var n := |more| - 1;
      HistoriesAreGapless(c, calls, more[..n]);
      assert (calls + more)[..|calls + more| - 1] == calls + more[..n];
      CallIsOrderly(Run(c, calls + more[..n]), more[n]);
    }
  }

  /** A catalog of distinct plans in their first version, without history, is a place to start. */
  lemma FirstVersionsAreOrderly(plans: seq<Plan>)
    requires DistinctIds(plans) && forall i :: 0 <= i < |plans| ==> VersionOf(plans[i]) == 1
    ensures Orderly(Catalog(0, plans, None, map[], []))
  {
    forall id: string
      ensures CurrentVersion(Catalog(0, plans, None, map[], []), id) <= 1
    {}
  }

  /** Restoring an old version makes a new one, with the content the old one had. */
  lemma RestoringBringsTheContentBack(c: Catalog, version: nat, id: string, from: nat, valid: bool)
    requires Orderly(c) && Apply(c, Restore(version, id, from, valid)).0.Ok?
    ensures var after := Apply(c, Restore(version, id, from, valid)).1;
            && CurrentVersion(after, id) == CurrentVersion(c, id) + 1
            && ContentOf(after, id, CurrentVersion(after, id)) == ContentOf(c, id, from)
            && ContentOf(c, id, from).Some?
  {
    hide Archived, FindPlan;
    var current := FindPlan(c.plans, id).value;
    assert (id, from) in c.history ==> 1 <= from < CurrentVersion(c, id);
    var plan := c.history[(id, from)].(enabled := current.enabled, archived := current.archived, id := id);
    var plans := Replaced(c.plans, id, plan);
    FoundInParallel(c.plans, plans, id);
    var i :| 0 <= i < |plans| && plans[i] == FindPlan(plans, id).value && c.plans[i] == current;
    SavedFound(c.plans, plans, Some(id), id);
  }

  // ---- what a call writes ----

  /**
    A plan saved as edited: with the edit's content and flags; under its next version when the content
    changed or a new version was asked for, else under the version it had. Stripe ids stay with an
    unchanged plan only, and whether Stripe manages it stays in any case.
  */
  ghost predicate IsSavedAs(c: Catalog, after: Catalog, edit: Plan, again: bool) {
    var prior, saved := FindPlan(c.plans, edit.id), FindPlan(after.plans, edit.id);
    && saved.Some?
    && saved.value.content == edit.content && saved.value.enabled == edit.enabled && saved.value.archived == edit.archived
    && match prior
       case None => saved.value.version == Some(1) && !saved.value.managed && saved.value.price == saved.value.product == None
       case Some(p) =>
         && saved.value.managed == p.managed
         && if again || p.content != edit.content
            then saved.value.version == Some(VersionOf(p) + 1) && saved.value.price == saved.value.product == None
            else saved.value.version == Some(VersionOf(p)) && saved.value.price == p.price && saved.value.product == p.product
  }

  /** The plans are those of before, in their order, and but for one they are as they were. */
  ghost predicate KeepsOthers(c: Catalog, after: Catalog, id: string) {
    && |after.plans| >= |c.plans|
    && forall i :: 0 <= i < |c.plans| ==>
         && after.plans[i].id == c.plans[i].id
         && (c.plans[i].id != id ==> after.plans[i] == c.plans[i].(version := Some(VersionOf(c.plans[i]))))
  }

  /** Every plan of an accepted save is found as it was saved, in the order given. */
  lemma SavedAsGiven(c: Catalog, version: nat, plans: seq<Plan>, restored: Option<string>, valid: bool, i: nat)
    requires Orderly(c) && Save(c, version, plans, restored, valid).0.Ok? && i < |plans|
    ensures var after := Save(c, version, plans, restored, valid).1;
            && |after.plans| == |plans| && after.plans[i].id == plans[i].id
            && IsSavedAs(c, after, plans[i], restored == Some(plans[i].id))
  {
    hide Archived, FindPlan, Collides;
    SavedFound(c.plans, plans, restored, plans[i].id);
    FoundAt(plans, i);
  }

  lemma SavedOthers(c: Catalog, version: nat, plans: seq<Plan>, restored: Option<string>, valid: bool, id: string)
    requires Orderly(c) && Save(c, version, plans, restored, valid).0.Ok?
    requires |plans| >= |c.plans| && (restored.Some? ==> restored.value == id)
    requires forall i :: 0 <= i < |c.plans| ==> plans[i].id == c.plans[i].id && (c.plans[i].id != id ==> plans[i] == c.plans[i])
    ensures KeepsOthers(c, Save(c, version, plans, restored, valid).1, id)
  {
    hide Archived, FindPlan, Collides;
    forall i | 0 <= i < |c.plans|
      ensures FindPlan(c.plans, c.plans[i].id) == Some(c.plans[i])
    {
      FoundAt(c.plans, i);
    }
  }

  /** What an edit of one plan asks to be saved, and whether as a new version in any case. */
  function EditOf(c: Catalog, call: Call): Option<(Plan, bool)> {
    match call
    case Create(_, plan, _) => Some((plan.(enabled := false), false))
    case Update(_, id, plan, _) => if FindPlan(c.plans, id).Some? then Some((plan.(id := id), false)) else None
    case SetArchived(_, id, archived, _) =>
      var current := FindPlan(c.plans, id);
      if current.Some? then Some((current.value.(archived := archived, enabled := false), false)) else None
    case NewVersion(_, id, _) =>
      var current := FindPlan(c.plans, id);
      if current.Some? then Some((current.value, true)) else None
    case Restore(_, id, from, _) =>
      var current := FindPlan(c.plans, id);
      if (id, from) in c.history && current.Some?
      then Some((c.history[(id, from)].(id := id, enabled := current.value.enabled, archived := current.value.archived), true)) else None
    case _ => None
  }

  /**
    An accepted edit is saved: the plan is found with the given content and flags under the right
    version, the other plans are as before and in their places, and only a created plan is added, at
    the end. Nothing is accepted for another version of the settings or while a plan is published.
  */
  lemma EditsAreSaved(c: Catalog, call: Call)
    requires Orderly(c) && Apply(c, call).0.Ok?
    requires call.Create? || call.Update? || call.SetArchived? || call.NewVersion? || call.Restore?
    ensures var after, edit := Apply(c, call).1, EditOf(c, call);
            && edit.Some? && IsSavedAs(c, after, edit.value.0, edit.value.1) && KeepsOthers(c, after, edit.value.0.id)
            && |after.plans| == |c.plans| + (if call.Create? then 1 else 0)
            && (call.Create? ==> FindPlan(c.plans, call.plan.id).None?)
            && after.version == c.version + 1 && call.version == c.version && c.pending.None? && call.valid
  {
    hide Archived, FindPlan, Collides, IsSavedAs, KeepsOthers, Orderly;
    if call.Create? {
      var plans := c.plans + [call.plan.(enabled := false)];
      SavedAsGiven(c, call.version, plans, None, call.valid, |c.plans|);
      SavedOthers(c, call.version, plans, None, call.valid, call.plan.id);
    } else {
      var edit := EditOf(c, call).value;
      var plans := Replaced(c.plans, call.id, edit.0);
      var restored := if edit.1 then Some(call.id) else None;
      var i :| 0 <= i < |c.plans| && c.plans[i] == FindPlan(c.plans, call.id).value;
      SavedAsGiven(c, call.version, plans, restored, call.valid, i);
      SavedOthers(c, call.version, plans, restored, call.valid, call.id);
    }
  }

  lemma OnPlanIsAnswered(c: Catalog, version: nat, id: string, plan: Plan, restored: Option<string>, valid: bool)
    requires Orderly(c)
    ensures var (answer, after) := OnPlan(c, version, id, plan, restored, valid);
            && answer == (if version != c.version then Refused(Stale)
                          else if forall p :: p in c.plans ==> p.id != id then Refused(PlanNotFound)
                          else if !valid then Refused(Invalid)
                          else if c.pending.Some? then Refused(BusyPublishing)
                          else Ok)
            && (!answer.Ok? ==> after == c)
  {
    hide Archived, FindPlan, Collides, Changes;
    var plans := Replaced(c.plans, id, plan.(id := id));
    SavesNeverCollide(c, plans, restored);
    forall i | 0 <= i < |c.plans|
      ensures FindPlan(plans, c.plans[i].id).Some?
    {
      FoundAt(plans, i);
    }
  }

  /** When an edit is accepted, and what it is refused for otherwise: a refused one changes nothing. */
  lemma EditIsAnswered(c: Catalog, call: Call)
    requires Orderly(c) && (call.Create? || call.Update? || call.SetArchived? || call.NewVersion? || call.Restore?)
    ensures var known := !call.Create? && exists p :: p in c.plans && p.id == call.id;
            Apply(c, call).0 ==
            if call.Restore? && (call.id, call.from) !in c.history then Refused(VersionNotFound)
            else if call.version != c.version then Refused(Stale)
            else if !call.Create? && !known then Refused(PlanNotFound)
            else if !call.valid || (call.Create? && exists p :: p in c.plans && p.id == call.plan.id) then Refused(Invalid)
            else if c.pending.Some? then Refused(BusyPublishing)
            else Ok
    ensures !Apply(c, call).0.Ok? ==> Apply(c, call).1 == c
  {
    hide Archived, FindPlan, Collides, OnPlan, Changes, Save;
    if call.Create? {
      if call.version == c.version {
        CreateIsAnswered(c, call.version, call.plan.(enabled := false), call.valid);
      }
    } else if EditOf(c, call).Some? {
      var edit := EditOf(c, call).value;
      OnPlanIsAnswered(c, call.version, call.id, if call.Update? then call.plan else edit.0, if edit.1 then Some(call.id) else None, call.valid);
      if call.Restore? {
        OnPlanIsAnswered(c, call.version, call.id, c.history[(call.id, call.from)].(enabled := edit.0.enabled, archived := edit.0.archived), Some(call.id), call.valid);
      }
    } else if call.Update? {
      OnPlanIsAnswered(c, call.version, call.id, call.plan, None, call.valid);
    }
  }

  lemma CreateIsAnswered(c: Catalog, version: nat, plan: Plan, valid: bool)
    requires Orderly(c) && version == c.version
    ensures var (answer, after) := Save(c, version, c.plans + [plan], None, valid);
            && answer == (if !valid || (exists p :: p in c.plans && p.id == plan.id) then Refused(Invalid)
                          else if c.pending.Some? then Refused(BusyPublishing)
                          else Ok)
            && (!answer.Ok? ==> after == c)
  {
    hide Archived, FindPlan, Collides, Changes;
    var plans := c.plans + [plan];
    SavesNeverCollide(c, plans, None);
    if exists p :: p in c.plans && p.id == plan.id {
      var i :| 0 <= i < |c.plans| && c.plans[i].id == plan.id;
      assert plans[i].id == plans[|c.plans|].id;
    } else {
      assert DistinctIds(plans);
      forall i | 0 <= i < |c.plans|
        ensures FindPlan(plans, c.plans[i].id).Some?
      {
        FoundAt(plans, i);
        assert plans[i] == c.plans[i];
      }
    }
  }

  /** Linking and publishing set Stripe ids, and publishing marks the plan as managed; nothing else of any plan changes. */
  lemma StripeIdsAreAttached(c: Catalog, call: Call)
    requires Orderly(c) && Apply(c, call).0.Ok? && (call.Link? || call.BeginPublish? || call.FinishPublish?)
    ensures var after := Apply(c, call).1;
            && |after.plans| == |c.plans|
            && forall i :: 0 <= i < |c.plans| ==>
                 var before := c.plans[i];
                 after.plans[i] ==
                 if call.Link? && before.id in call.links then before.(product := Some(call.links[before.id].0), price := Some(call.links[before.id].1))
                 else if call.FinishPublish? && c.pending.Some? && call.publication == c.pending.value.id && before == c.pending.value.plan
                 then before.(product := Some(call.product), price := Some(call.price), managed := true)
                 else before
    ensures call.FinishPublish? && c.pending.Some? && call.publication == c.pending.value.id ==> Apply(c, call).1.pending.None? && c.pending.value.plan in c.plans
  {
    hide FindPlan;
    forall i | 0 <= i < |c.plans|
      ensures FindPlan(c.plans, c.plans[i].id) == Some(c.plans[i])
    {
      FoundAt(c.plans, i);
    }
  }

  // ---- as the service runs it ----

  class PlanService {
    var catalog: Catalog

    constructor (plans: seq<Plan>)
      ensures catalog == Catalog(0, plans, None, map[], [])
    {
      catalog := Catalog(0, plans, None, map[], []);
    }

    /** Walks the saved plans, collecting the history rows on the way, and writes all or nothing. */
    method SaveSettings(version: nat, plans: seq<Plan>, restored: Option<string>, valid: bool) returns (answer: Answer)
      modifies this
      ensures (answer, catalog) == Save(old(catalog), version, plans, restored, valid)
    {
      if !valid || !DistinctIds(plans) {
        return Refused(Invalid);
      }
      if version != catalog.version {
        return Refused(Stale);
      }
      if catalog.pending.Some? {
        return Refused(BusyPublishing);
      }
      var previous := catalog.plans;
      for i := 0 to |previous|
        invariant forall j :: 0 <= j < i ==> FindPlan(plans, previous[j].id).Some?
      {
        if FindPlan(plans, previous[i].id).None? {
          return Refused(PlanRemoved);
        }
      }
      var next, history, collides := NextVersions(catalog.history, previous, plans, restored);
      if collides {
        return Refused(Stale);
      }
      catalog := catalog.(version := catalog.version + 1, plans := next, history := history);
      answer := Ok;
    }
  }

  /** The next version of every plan that changes, and the history rows it leaves behind. */
  method NextVersions(archive: map<(string, nat), Plan>, previous: seq<Plan>, plans: seq<Plan>, restored: Option<string>)
    returns (next: seq<Plan>, history: map<(string, nat), Plan>, collides: bool)
    ensures next == SavedPlans(previous, plans, restored) && history == Archived(archive, previous, plans, restored)
    ensures collides <==> Collides(archive, previous, plans, restored)
  {
    hide Collides, Changes, Saved;
    next, history, collides := [], archive, false;
    NothingCollides(archive, previous, restored);
    for i := 0 to |plans|
      invariant next == SavedPlans(previous, plans, restored)[..i]
      invariant history == Archived(archive, previous, plans[..i], restored)
      invariant collides <==> Collides(archive, previous, plans[..i], restored)
    {
      assert plans[..i + 1][..i] == plans[..i];
      CollidesStep(archive, previous, plans, restored, i);
      var prior := FindPlan(previous, plans[i].id);
      var plan, changed := NextVersion(prior, previous, plans[i], restored);
      if changed {
        collides := collides || (plan.id, VersionOf(prior.value)) in archive;
        history := history[(plan.id, VersionOf(prior.value)) := prior.value];
      }
      next := next + [plan];
    }
    assert plans[..|plans|] == plans;
  }

  method NextVersion(prior: Option<Plan>, ghost previous: seq<Plan>, saved: Plan, restored: Option<string>) returns (plan: Plan, changed: bool)
    requires prior == FindPlan(previous, saved.id)
    ensures plan == Saved(previous, saved, restored) && changed == Changes(previous, saved, restored) && plan.id == saved.id
    ensures changed ==> prior.Some?
  {
    changed := prior.Some? && (restored == Some(saved.id) || prior.value.content != saved.content);
    var number := if prior.Some? then VersionOf(prior.value) else 1;
    plan := saved.(managed := prior.Some? && prior.value.managed, version := Some(if changed then number + 1 else number));
    if !changed && prior.Some? {
      plan := plan.(price := prior.value.price, product := prior.value.product);
    } else {
      plan := plan.(price := None, product := None);
    }
  }

  lemma NothingCollides(archive: map<(string, nat), Plan>, previous: seq<Plan>, restored: Option<string>)
    ensures !Collides(archive, previous, [], restored)
  {}

  lemma CollidesStep(archive: map<(string, nat), Plan>, previous: seq<Plan>, plans: seq<Plan>, restored: Option<string>, i: nat)
    requires i < |plans|
    ensures Collides(archive, previous, plans[..i + 1], restored) <==>
            || Collides(archive, previous, plans[..i], restored)
            || (Changes(previous, plans[i], restored) && (plans[i].id, VersionOf(FindPlan(previous, plans[i].id).value)) in archive)
  {
    if Collides(archive, previous, plans[..i], restored) {
      var front := plans[..i];
      var j :| 0 <= j < |front| && Changes(previous, front[j], restored) && (front[j].id, VersionOf(FindPlan(previous, front[j].id).value)) in archive;
      assert plans[..i + 1][j] == front[j];
    }
    assert plans[..i + 1][i] == plans[i];
  }

  // ---- ids of new plans ----

  function Candidate(name: string, n: nat): string {
    if n < 2 then name else name + "-" + Decimal(n)
  }

  /** The first n - 1 candidates. */
  ghost function Tried(name: string, n: nat): set<string> {
    if n <= 1 then {} else Tried(name, n - 1) + {Candidate(name, n - 1)}
  }

  lemma {:induction false} NotTriedYet(name: string, n: nat, m: nat)
    requires n <= m
    ensures Candidate(name, m) !in Tried(name, n)
  {
    if n > 1 {
      NotTriedYet(name, n - 1, m);
      CandidatesDiffer(name, n - 1, m);
    }
  }

  lemma {:induction false} TriedAlready(name: string, n: nat, k: nat)
    requires 1 <= k < n
    ensures Candidate(name, k) in Tried(name, n)
  {
    if k < n - 1 {
      TriedAlready(name, n - 1, k);
    }
  }

  lemma OneLess(ids: set<string>, tried: set<string>, id: string)
    requires id in ids && id !in tried
    ensures |ids - (tried + {id})| < |ids - tried|
  {
    assert ids - tried == (ids - (tried + {id})) + {id};
  }

  /** The first of name, name-2, name-3, ... that no plan has; it is always found. */
  method PlanIdFromName(name: string, existing: seq<string>) returns (id: string, ghost n: nat)
    ensures id !in existing && n >= 1 && id == Candidate(name, n)
    ensures forall k :: 1 <= k < n ==> Candidate(name, k) in existing
  {
    hide Decimal;
    var ids := set e | e in existing;
    id := name;
    var suffix := 2;
    n := 1;
    while id in ids
      invariant suffix == n + 1 && n >= 1 && id == Candidate(name, n) && Tried(name, n) <= ids
      decreases |ids - Tried(name, n)|
    {
      NotTriedYet(name, n, n);
      OneLess(ids, Tried(name, n), id);
      id := name + "-" + Decimal(suffix);
      suffix := suffix + 1;
      n := n + 1;
    }
    forall k | 1 <= k < n
      ensures Candidate(name, k) in existing
    {
      TriedAlready(name, n, k);
    }
  }

  lemma CandidatesDiffer(name: string, k: nat, n: nat)
    requires 1 <= k < n
    ensures Candidate(name, k) != Candidate(name, n)
  {
    if k < 2 {
      assert |Candidate(name, n)| > |name|;
    } else if Candidate(name, k) == Candidate(name, n) {
      var a, b := Candidate(name, k), Candidate(name, n);
      assert a[|name| + 1..] == Decimal(k) && b[|name| + 1..] == Decimal(n);
      DecimalsDiffer(k, n);
    }
  }
}
