/**
 The project-list state of the dashboard shell (App.js): saving a project
 (merge into the entries with the same id when the saved data has an id,
 append a new project otherwise), deleting by id, going back from a form or
 detail page, and logging out.

 A project is a JavaScript object, modelled as a map from property names to
 values (an absent key reads as `undefined`); object spread `{...p, ...d}`
 is map union, in which the right operand's keys win. The fresh id that
 `Date.now().toString()` supplies is a parameter.
 */
module Projects {
  import opened Wrappers

  /** The property values projects and users hold. A team is a list of
      members, each represented by its `initials` value. */
  datatype Value = Undefined | Str(s: string) | Num(n: int) | Members(initials: seq<Value>)

  /** A JavaScript object: a project, a user, or the data a form saves. */
  type Record = map<string, Value>

  /** `o[k]`: the property, or undefined when it is absent. */
  function Get(o: Record, k: string): Value {
    if k in o then o[k] else Undefined
  }

  /** JavaScript truthiness of a value: everything except undefined, the
      empty string and zero. */
  predicate Truthy(v: Value)
    ensures Truthy(v) <==> v != Undefined && v != Str("") && v != Num(0)
  {
    match v
    case Undefined => false
    case Str(s) => s != ""
    case Num(n) => n != 0
    case Members(_) => true
  }

  /** `{...p, ...d}`: every property of `d` overrides, every other property
      of `p` is kept. */
  function Spread(p: Record, d: Record): (r: Record)
    ensures r.Keys == p.Keys + d.Keys
    ensures forall k :: k in d ==> Get(r, k) == d[k]
    ensures forall k :: k !in d ==> Get(r, k) == Get(p, k)
  {
    p + d
  }

  /** The edit branch of handleSaveProject: every entry whose id equals the
      saved data's id absorbs the saved data; all other entries stay as they
      were, in place. */
  function SaveEdit(ps: seq<Record>, d: Record): (r: seq<Record>)
    ensures |r| == |ps|
    ensures forall k :: 0 <= k < |ps| ==>
      r[k] == if Get(ps[k], "id") == Get(d, "id") then Spread(ps[k], d) else ps[k]
    ensures forall k :: 0 <= k < |ps| ==> Get(r[k], "id") == Get(ps[k], "id")
  {
    if |ps| == 0 then []
    else
      var head := if Get(ps[0], "id") == Get(d, "id") then Spread(ps[0], d) else ps[0];
      [head] + SaveEdit(ps[1..], d)
  }

  /** The project the create branch of handleSaveProject appends: the saved
      data with a fresh id, no tasks, no progress, and the current user as
      the only team member. */
  function NewProject(d: Record, freshId: string, user: Record): (p: Record)
    ensures p.Keys == d.Keys + {"id", "taskCount", "progress", "team"}
    ensures Get(p, "id") == Str(freshId)
    ensures Get(p, "taskCount") == Num(0) && Get(p, "progress") == Num(0)
    ensures Get(p, "team") == Members([Get(user, "initials")])
    ensures forall k :: k in d && k !in {"id", "taskCount", "progress", "team"} ==> Get(p, k) == d[k]
  {
    Spread(d, map["id" := Str(freshId), "taskCount" := Num(0), "progress" := Num(0),
                  "team" := Members([Get(user, "initials")])])
  }

  /** handleDeleteProject: the entries whose id differs from `id`, in their
      original order. */
  function Remove(ps: seq<Record>, id: Value): (r: seq<Record>)
    ensures forall k :: 0 <= k < |r| ==> Get(r[k], "id") != id
    ensures |r| + Count(ps, id) == |ps|
  {
    if |ps| == 0 then []
    else if Get(ps[0], "id") != id then [ps[0]] + Remove(ps[1..], id)
    else Remove(ps[1..], id)
  }

  /** Delete keeps exactly the entries with other ids: an entry survives if
      and only if it was in the list and carries another id. */
  lemma {:induction false} RemoveKeepsOthers(ps: seq<Record>, id: Value, p: Record)
    ensures p in Remove(ps, id) <==> p in ps && Get(p, "id") != id
    decreases |ps|
  {
    if |ps| > 0 {
      RemoveKeepsOthers(ps[1..], id, p);
      assert p in ps <==> p == ps[0] || p in ps[1..];
    }
  }

  /** How many entries carry the id `id`. */
  function Count(ps: seq<Record>, id: Value): nat {
    if |ps| == 0 then 0
    else (if Get(ps[0], "id") == id then 1 else 0) + Count(ps[1..], id)
  }

  /** Deleting keeps the relative order of the survivors: deleting from a
      concatenation deletes from each part. */
  lemma {:induction false} RemoveConcat(a: seq<Record>, b: seq<Record>, id: Value)
    ensures Remove(a + b, id) == Remove(a, id) + Remove(b, id)
    decreases |a|
  {
    if |a| > 0 {
      assert (a + b)[0] == a[0];
      assert (a + b)[1..] == a[1..] + b;
      RemoveConcat(a[1..], b, id);
      if Get(a[0], "id") != id {
        calc {
          Remove(a + b, id);
          [a[0]] + Remove(a[1..] + b, id);
          [a[0]] + (Remove(a[1..], id) + Remove(b, id));
          ([a[0]] + Remove(a[1..], id)) + Remove(b, id);
          Remove(a, id) + Remove(b, id);
        }
      } else {
        calc {
          Remove(a + b, id);
          Remove(a[1..] + b, id);
          Remove(a[1..], id) + Remove(b, id);
          Remove(a, id) + Remove(b, id);
        }
      }
    } else {
      assert a + b == b;
    }
  }

  /** Deleting an id no entry carries changes nothing. */
  lemma {:induction false} RemoveAbsent(ps: seq<Record>, id: Value)
    requires forall k :: 0 <= k < |ps| ==> Get(ps[k], "id") != id
    ensures Remove(ps, id) == ps
    decreases |ps|
  {
    if |ps| > 0 {
      RemoveAbsent(ps[1..], id);
      assert ps == [ps[0]] + ps[1..];
    }
  }

  /** Deleting the fresh id of a just-created project undoes the creation,
      when no earlier entry carried that id. */
  lemma DeleteUndoesCreate(ps: seq<Record>, d: Record, freshId: string, user: Record)
    requires forall k :: 0 <= k < |ps| ==> Get(ps[k], "id") != Str(freshId)
    ensures Remove(ps + [NewProject(d, freshId, user)], Str(freshId)) == ps
  {
    DeleteUndoesAppend(ps, NewProject(d, freshId, user), Str(freshId));
  }

  /** Deleting the id of an entry just appended, that no earlier entry
      carries, restores the list. */
  lemma DeleteUndoesAppend(ps: seq<Record>, p: Record, id: Value)
    requires Get(p, "id") == id
    requires forall k :: 0 <= k < |ps| ==> Get(ps[k], "id") != id
    ensures Remove(ps + [p], id) == ps
  {
    RemoveConcat(ps, [p], id);
    RemoveAbsent(ps, id);
    assert [p][1..] == [];
    assert Remove([p], id) == [];
    assert ps + [] == ps;
  }

  /** Saving the same edit twice is the same as saving it once. */
  lemma {:induction false} SaveEditIdempotent(ps: seq<Record>, d: Record)
    requires Truthy(Get(d, "id"))
    ensures SaveEdit(SaveEdit(ps, d), d) == SaveEdit(ps, d)
    decreases |ps|
  {
    if |ps| > 0 {
      SaveEditIdempotent(ps[1..], d);
      var once := SaveEdit(ps, d);
      assert once[1..] == SaveEdit(ps[1..], d);
      if Get(ps[0], "id") == Get(d, "id") {
        assert Spread(Spread(ps[0], d), d) == Spread(ps[0], d);
      }
    }
  }

  /** The views the sidebar selects between. */
  datatype Page = Dashboard | ProjectList | Team | Settings

  /** The App component's state that the handlers touch. */
  datatype App = App(
    loggedIn: bool,
    user: Option<Record>,
    activeView: Page,
    creating: bool,
    editing: Option<Record>,
    selected: Option<Record>,
    projects: seq<Record>)

  /** handleSaveProject. The create branch reads `user.initials`, so a user
      must be logged in when the saved data carries no id. */
  function SaveProject(a: App, d: Record, freshId: string): (r: App)
    requires Truthy(Get(d, "id")) || a.user.Some?
    ensures Truthy(Get(d, "id")) ==>
      && r.projects == SaveEdit(a.projects, d)
      && r.editing == None
      && r == a.(projects := r.projects, editing := None)
    ensures !Truthy(Get(d, "id")) ==>
      && |r.projects| == |a.projects| + 1
      && r.projects[..|a.projects|] == a.projects
      && r.projects[|a.projects|] == NewProject(d, freshId, a.user.value)
      && !r.creating
      && r == a.(projects := r.projects, creating := false)
  {
    if Truthy(Get(d, "id")) then
      a.(projects := SaveEdit(a.projects, d), editing := None)
    else
      a.(projects := a.projects + [NewProject(d, freshId, a.user.value)], creating := false)
  }

  /** handleDeleteProject. */
  function DeleteProject(a: App, id: Value): (r: App)
    ensures r.projects == Remove(a.projects, id)
    ensures forall k :: 0 <= k < |r.projects| ==> Get(r.projects[k], "id") != id
    ensures r == a.(projects := r.projects)
  {
    a.(projects := Remove(a.projects, id))
  }

  /** handleGoBack: leaves any form or detail page. */
  function GoBack(a: App): (r: App)
    ensures r.selected == None && !r.creating && r.editing == None
    ensures r == a.(selected := None, creating := false, editing := None)
  {
    a.(selected := None, creating := false, editing := None)
  }

  /** Going back is idempotent and touches neither the projects nor the
      session: the user, the login flag and the sidebar page stay. */
  lemma GoBackKeepsSession(a: App)
    ensures GoBack(GoBack(a)) == GoBack(a)
    ensures GoBack(a).projects == a.projects && GoBack(a).user == a.user
    ensures GoBack(a).loggedIn == a.loggedIn && GoBack(a).activeView == a.activeView
  {
  }

  /** handleLoginSuccess. */
  function LoginSuccess(a: App, user: Record): (r: App)
    ensures r.loggedIn && r.user == Some(user)
    ensures r == a.(loggedIn := true, user := Some(user))
  {
    a.(loggedIn := true, user := Some(user))
  }

  /** handleLogout: forgets the user and returns to the dashboard. */
  function Logout(a: App): (r: App)
    ensures !r.loggedIn && r.user == None && r.activeView == Dashboard
    ensures r.projects == a.projects
    ensures r == a.(loggedIn := false, user := None, activeView := Dashboard)
  {
    a.(loggedIn := false, user := None, activeView := Dashboard)
  }

  /** Logging out right after logging in leaves the state as it was, except
      that the dashboard is shown and nobody is logged in. */
  lemma LoginLogout(a: App, user: Record)
    ensures Logout(LoginSuccess(a, user)) == Logout(a)
  {
  }
}
