/** The navigation menu each role sees. */
module Sidebar {
  import opened Wrappers
  import opened Types

  datatype MenuItem = MenuItem(id: string, labelText: string)

  const Common: seq<MenuItem> := [MenuItem("dashboard", "Dashboard"), MenuItem("tickets", "Chamados")]
  const Staff: seq<MenuItem> := [MenuItem("users", "Usuários"), MenuItem("technicians", "Técnicos")]
  const AdminOnly: seq<MenuItem> :=
    [MenuItem("reports", "Relatórios"), MenuItem("categories", "Categorias"), MenuItem("settings", "Configurações")]

  /** `user?.role !== 'user'`: true also with nobody logged in. */
  predicate SeesStaff(actor: Option<User>)
  {
    !(actor.Some? && actor.value.role == EndUser)
  }

  predicate SeesAdmin(actor: Option<User>)
  {
    actor.Some? && actor.value.role == Admin
  }

  predicate HasItem(items: seq<MenuItem>, id: string)
  {
    exists i :: 0 <= i < |items| && items[i].id == id
  }

  /** The menu: dashboard and tickets, then the staff entries, then the admin entries. */
  function MenuItems(actor: Option<User>): (r: seq<MenuItem>)
    ensures |r| == 2 + (if SeesStaff(actor) then 2 else 0) + (if SeesAdmin(actor) then 3 else 0)
    ensures r[0].id == "dashboard" && r[1].id == "tickets"
    ensures HasItem(r, "users") <==> SeesStaff(actor)
    ensures HasItem(r, "technicians") <==> SeesStaff(actor)
    ensures HasItem(r, "reports") <==> SeesAdmin(actor)
    ensures HasItem(r, "categories") <==> SeesAdmin(actor)
    ensures HasItem(r, "settings") <==> SeesAdmin(actor)
  {
    var r := Common + (if SeesStaff(actor) then Staff else []) + (if SeesAdmin(actor) then AdminOnly else []);
    assert SeesStaff(actor) ==> r[2].id == "users" && r[3].id == "technicians";
    assert SeesAdmin(actor) ==> r[4].id == "reports" && r[5].id == "categories" && r[6].id == "settings";
    ItemIds(r, actor);
    r
  }

  lemma ItemIds(r: seq<MenuItem>, actor: Option<User>)
    requires r == Common + (if SeesStaff(actor) then Staff else []) + (if SeesAdmin(actor) then AdminOnly else [])
    ensures forall i :: 0 <= i < |r| ==>
      (r[i].id in {"dashboard", "tickets"} + (if SeesStaff(actor) then {"users", "technicians"} else {})
                  + (if SeesAdmin(actor) then {"reports", "categories", "settings"} else {}))
  {
    forall i | 0 <= i < |r|
      ensures r[i].id in {"dashboard", "tickets"} + (if SeesStaff(actor) then {"users", "technicians"} else {})
        + (if SeesAdmin(actor) then {"reports", "categories", "settings"} else {})
    {
      if i < 2 {
        assert r[i] == Common[i];
      } else if SeesStaff(actor) && i < 4 {
        assert r[i] == Staff[i - 2];
      } else {
        assert r[i] == AdminOnly[i - |Common| - (if SeesStaff(actor) then 2 else 0)];
      }
    }
  }

  /** Menu sizes: 2 for an end user, 4 for a technician or nobody, 7 for an admin. */
  lemma MenuSizes(actor: Option<User>)
    ensures actor.Some? && actor.value.role == EndUser ==> |MenuItems(actor)| == 2
    ensures actor.Some? && actor.value.role == Technician ==> |MenuItems(actor)| == 4
    ensures actor.None? ==> |MenuItems(actor)| == 4
    ensures actor.Some? && actor.value.role == Admin ==> |MenuItems(actor)| == 7
  {
  }
}
