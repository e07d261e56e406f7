/** Which view and which card the page shows (index.tsx, the effect of
    `Root` and its render): `admin=true` selects the admin panel; otherwise a
    truthy `id` is looked up in the stored collection, and the bundled
    default is shown when there is no id, no stored collection or no match. */
module Resolver {
  import opened Types
  import opened Constants
  import opened Store
  import opened ProfileEditor

  /** The values of the `admin` and `id` query parameters (null when absent). */
  datatype Query = Query(admin: Option<string>, id: Option<string>)

  datatype View = AppView | AdminView

  /** The result of the effect: the view, the stored card it selected
      (None: the card state keeps its initial value, the bundled default)
      and the new page title (None: the title is left as it was). */
  datatype Resolution = Resolution(view: View, found: Option<UserProfile>, title: Option<string>)

  /** What the root finally renders. */
  datatype Rendered = AdminPage | CardPage(data: UserProfile)

  const AdminTitle: string := "NCV Admin Dashboard"

  /** `i` is the index of the first entry of `ps` with that id. */
  ghost predicate IsFirstWithId(ps: seq<UserProfile>, i: int, id: string) {
    0 <= i < |ps| && ps[i].id == id && forall j :: 0 <= j < i ==> ps[j].id != id
  }

  /** `profiles.find(p => p.id === id)`: the first entry with that id. */
  function FindById(ps: seq<UserProfile>, id: string): (r: Option<UserProfile>)
    ensures r.Some? <==> HasId(ps, id)
    ensures r.Some? ==> exists i :: IsFirstWithId(ps, i, id) && ps[i] == r.value
  {
    if ps == [] then None
    else if ps[0].id == id then
      assert IsFirstWithId(ps, 0, id);
      Some(ps[0])
    else
      var r := FindById(ps[1..], id);
      assert r.Some? ==> exists i :: IsFirstWithId(ps, i, id) && ps[i] == r.value by {
        if r.Some? {
          var i :| IsFirstWithId(ps[1..], i, id) && ps[1..][i] == r.value;
          forall j | 0 <= j < i + 1 ensures ps[j].id != id {
            if j > 0 { assert ps[j] == ps[1..][j - 1]; }
          }
          assert IsFirstWithId(ps, i + 1, id);
        }
      }
      r
  }

  /** The effect's decision, given the query and the stored collection
      (None when the storage key is absent). */
  function Resolve(q: Query, stored: Option<seq<UserProfile>>): (r: Resolution)
    ensures q.admin == Some("true") ==> r == Resolution(AdminView, None, Some(AdminTitle))
    ensures q.admin != Some("true") ==> r.view == AppView
    ensures q.admin != Some("true") ==>
      (r.found.Some? <==> Truthy(q.id) && stored.Some? && HasId(stored.value, q.id.value))
    ensures r.found.Some? ==>
      stored.Some? && r.found.value in stored.value && r.found.value.id == q.id.value &&
      r.title == Some(r.found.value.content.vi.title)
    ensures q.admin != Some("true") && r.found.None? ==> r.title == None
  {
    if q.admin == Some("true") then
      Resolution(AdminView, None, Some(AdminTitle))
    else if Truthy(q.id) && stored.Some? then
      var found := FindById(stored.value, q.id.value);
      var title := if found.Some? then Some(found.value.content.vi.title) else None;
      Resolution(AppView, found, title)
    else
      Resolution(AppView, None, None)
  }

  /** The card on screen after the effect: the selected one, else the
      initial state's default card. */
  function CardOf(r: Resolution): (p: UserProfile)
    ensures r.found.Some? ==> p == r.found.value
    ensures r.found.None? ==> p == DefaultProfile
  {
    if r.found.Some? then r.found.value else DefaultProfile
  }

  /** `view === 'admin' ? <Admin/> : <App data={profileData}/>`, with the
      card state the effect leaves. */
  function Render(r: Resolution): (page: Rendered)
    ensures page == AdminPage <==> r.view == AdminView
    ensures page.CardPage? ==> page.data == CardOf(r)
  {
    if r.view == AdminView then AdminPage else CardPage(CardOf(r))
  }

  /** In admin mode the stored collection plays no part. */
  lemma AdminIgnoresStore(q: Query, s1: Option<seq<UserProfile>>, s2: Option<seq<UserProfile>>)
    requires q.admin == Some("true")
    ensures Resolve(q, s1) == Resolve(q, s2)
    ensures Render(Resolve(q, s1)) == AdminPage
  {
  }

  /** A stored card whose id is non-empty is what `?id=<its id>` shows,
      with its Vietnamese title as page title, when ids are unique. */
  lemma ResolveStoredCard(ps: seq<UserProfile>, i: nat, admin: Option<string>)
    requires UniqueIds(ps) && i < |ps| && ps[i].id != ""
    requires admin != Some("true")
    ensures var r := Resolve(Query(admin, Some(ps[i].id)), Some(ps));
      r.found == Some(ps[i]) && r.title == Some(ps[i].content.vi.title)
  {
    assert HasId(ps, ps[i].id);
    var found := FindById(ps, ps[i].id);
    var k :| IsFirstWithId(ps, k, ps[i].id) && ps[k] == found.value;
    assert k == i;
  }

  /** Without unique ids the FIRST card with the id is shown. */
  lemma ResolveFirstMatch(ps: seq<UserProfile>, id: string, admin: Option<string>)
    requires id != "" && admin != Some("true") && HasId(ps, id)
    ensures var r := Resolve(Query(admin, Some(id)), Some(ps));
      exists i :: IsFirstWithId(ps, i, id) && r.found == Some(ps[i])
  {
    var found := FindById(ps, id);
    var i :| IsFirstWithId(ps, i, id) && ps[i] == found.value;
    assert Resolve(Query(admin, Some(id)), Some(ps)).found == Some(ps[i]);
  }

  /** No id, an empty id, no stored collection or an unknown id: the
      default card, and the page title is left alone. */
  lemma ResolveFallsBackToDefault(q: Query, stored: Option<seq<UserProfile>>)
    requires q.admin != Some("true")
    requires !Truthy(q.id) || stored.None? || !HasId(stored.value, q.id.value)
    ensures Resolve(q, stored) == Resolution(AppView, None, None)
    ensures Render(Resolve(q, stored)) == CardPage(DefaultProfile)
  {
  }

  /** What the admin panel saves is what `?id=` then shows. */
  lemma SaveThenResolve(ps: seq<UserProfile>, d: UserProfile)
    requires d.id != ""
    ensures Resolve(Query(None, Some(d.id)), Some(Upsert(ps, d))).found == Some(d)
  {
    var r := Upsert(ps, d);
    var i: nat := if HasId(ps, d.id) then (var k :| 0 <= k < |ps| && ps[k].id == d.id; k) else |ps|;
    assert r[i] == d;
    assert HasId(r, d.id);
    var found := FindById(r, d.id);
    var k :| IsFirstWithId(r, k, d.id) && r[k] == found.value;
    if HasId(ps, d.id) {
      assert k < |ps| && ps[k].id == d.id;
    } else {
      assert forall j :: 0 <= j < |ps| ==> r[j] == ps[j];
    }
  }

  /** After a card is deleted, `?id=<its id>` shows the default card. */
  lemma DeleteThenResolve(ps: seq<UserProfile>, id: string)
    ensures Resolve(Query(None, Some(id)), Some(RemoveById(ps, id))).found == None
    ensures Render(Resolve(Query(None, Some(id)), Some(RemoveById(ps, id)))) == CardPage(DefaultProfile)
  {
  }

  /** The root component's state: the view, the card data and the page title. */
  class Root {
    var view: View
    var profileData: UserProfile
    var documentTitle: string

    /** The initial state; the page title comes from the host page. */
    constructor (initialTitle: string)
      ensures view == AppView && profileData == DefaultProfile && documentTitle == initialTitle
    {
      view := AppView;
      profileData := DefaultProfile;
      documentTitle := initialTitle;
    }

    /** The mount effect. It reads the store only when not in admin mode
        and never writes it (unlike the admin panel's loader). */
    method Mount(q: Query, storage: Storage)
      modifies this
      ensures var r := Resolve(q, storage.GetItem(StorageKey));
        && view == (if r.view == AdminView then AdminView else old(view))
        && profileData == (if r.found.Some? then r.found.value else old(profileData))
        && documentTitle == (if r.title.Some? then r.title.value else old(documentTitle))
      ensures storage.items == old(storage.items)
    {
      if q.admin == Some("true") {
        view := AdminView;
        documentTitle := AdminTitle;
        return;
      }
      var userId := q.id;
      if userId.Some? && userId.value != "" {
        var stored := storage.GetItem(StorageKey);
        if stored.Some? {
          var found := FindById(stored.value, userId.value);
          if found.Some? {
            profileData := found.value;
            documentTitle := found.value.content.vi.title;
          }
        }
      }
    }

    /** The root's render. */
    function Page(): (page: Rendered)
      reads this
      ensures page == AdminPage <==> view == AdminView
      ensures page.CardPage? ==> page.data == profileData
    {
      if view == AdminView then AdminPage else CardPage(profileData)
    }
  }

  /** Loading the page: the root is created, then its effect runs. What it
      renders is the resolution of the query against the store. */
  method LoadPage(q: Query, storage: Storage, hostTitle: string) returns (root: Root)
    ensures fresh(root)
    ensures var r := Resolve(q, storage.GetItem(StorageKey));
      && root.view == r.view
      && root.profileData == (if r.found.Some? then r.found.value else DefaultProfile)
      && root.documentTitle == (if r.title.Some? then r.title.value else hostTitle)
    ensures root.Page() == Render(Resolve(q, storage.GetItem(StorageKey)))
    ensures storage.items == old(storage.items)
  {
    root := new Root(hostTitle);
    root.Mount(q, storage);
  }
}
