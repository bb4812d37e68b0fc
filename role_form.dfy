/**
 * The role create/edit form of the user-administration client: its field
 * values, the permission checkboxes grouped by resource, and the request
 * it submits.
 */
module RoleForm {
  import opened Seqs
  import opened AdminTypes
  import Selection
  import Grouping

  function PermissionId(p: Permission): int
  {
    p.id
  }

  function ResourceOf(p: Permission): string
  {
    p.resource
  }

  /** `role.description || ''` */
  function DescriptionText(d: Option<string>): string
  {
    if d.Some? then d.value else []
  }

  /**
   * `permissionsByResource`: one group per resource, in order of first
   * appearance, each holding that resource's permissions in list order; the
   * groups together hold every permission once.
   */
  method PermissionsByResource(permissions: seq<Permission>) returns (groups: seq<Grouping.Group<Permission>>)
    ensures groups == Grouping.GroupAll(permissions, ResourceOf)
    ensures Grouping.Distinct(Grouping.Keys(groups))
    ensures forall k :: Grouping.MembersOf(groups, k) == Filter(permissions, Grouping.KeyIs(ResourceOf, k))
    ensures forall k :: k in Grouping.Keys(groups) <==> exists p :: p in permissions && p.resource == k
    ensures Grouping.TotalSize(groups) == |permissions|
  {
    groups := Grouping.GroupItems(permissions, ResourceOf);
    Grouping.GroupAllSpec(permissions, ResourceOf);
  }

  /**
   * The submit handler: a non-empty route id means edit mode and an update
   * of that role; otherwise a create. Both carry the form's fields as they are.
   */
  function Submit(routeId: string, name: string, description: string, permissionIds: Option<seq<int>>): (r: RoleRequest)
    ensures r.body == RoleBody(name, description, permissionIds)
    ensures r.UpdateRole? <==> routeId != []
    ensures r.UpdateRole? ==> r.routeId == routeId
  {
    var body := RoleBody(name, description, permissionIds);
    if routeId != [] then UpdateRole(routeId, body) else CreateRole(body)
  }

  const NameRequired := "Role name is required"

  /** The one registered rule of the form: the role name is required. */
  function ValidateName(name: string): (e: Option<string>)
    ensures e.None? <==> name != []
    ensures e.Some? ==> e.value == NameRequired
  {
    if name == [] then Some(NameRequired) else None
  }

  /** The form's values. */
  class Form {
    var name: string
    var description: string
    /** None until the prefill or a checkbox sets it. */
    var permissionIds: Option<seq<int>>

    /** An empty form: the text inputs read as empty and the permission ids are not set. */
    constructor()
      ensures name == [] && description == [] && permissionIds == None
    {
      name := [];
      description := [];
      permissionIds := None;
    }

    /** The edit-mode prefill: the role's name, description (or empty) and permission ids. */
    method Prefill(role: Role)
      modifies this
      ensures name == role.name && description == DescriptionText(role.description)
      ensures permissionIds == Some(Map(role.permissions, PermissionId))
      ensures forall p :: p in role.permissions ==> p.id in permissionIds.value
    {
      name := role.name;
      description := DescriptionText(role.description);
      var ids := Map(role.permissions, PermissionId);
      permissionIds := Some(ids);
      forall p | p in role.permissions ensures p.id in ids {
        var i :| 0 <= i < |role.permissions| && role.permissions[i] == p;
        assert ids[i] == p.id;
      }
    }

    /** `handlePermissionChange`: toggles the current selection, an unset one read as empty. */
    method HandlePermissionChange(permissionId: int, checked: bool)
      modifies this`permissionIds
      ensures permissionIds == Some(Selection.Toggle(Selection.Current(old(permissionIds)), permissionId, checked))
    {
      permissionIds := Some(Selection.Toggle(Selection.Current(permissionIds), permissionId, checked));
    }

    /** `onSubmit` */
    method OnSubmit(routeId: string) returns (r: RoleRequest)
      ensures r == Submit(routeId, name, description, permissionIds)
    {
      r := Submit(routeId, name, description, permissionIds);
    }

    /** `handleSubmit(onSubmit)`: `onSubmit` runs only when the name passes its rule. */
    method HandleSubmit(routeId: string) returns (r: Option<RoleRequest>, error: Option<string>)
      ensures error == ValidateName(name)
      ensures r.Some? <==> name != []
      ensures r.Some? ==> r.value == Submit(routeId, name, description, permissionIds)
    {
      error := ValidateName(name);
      if error.None? {
        var request := OnSubmit(routeId);
        r := Some(request);
      } else {
        r := None;
      }
    }
  }

  /**
   * Editing a role and submitting unchanged sends the role's own fields back,
   * unless the stored name is empty, which the name rule stops.
   */
  method EditUnchanged(form: Form, role: Role, routeId: string) returns (r: Option<RoleRequest>)
    requires routeId != []
    modifies form
    ensures r.Some? <==> role.name != []
    ensures r.Some? ==> r.value == UpdateRole(routeId, RoleBody(role.name, DescriptionText(role.description),
                                                                Some(Map(role.permissions, PermissionId))))
  {
    form.Prefill(role);
    var error;
    r, error := form.HandleSubmit(routeId);
  }

  /**
   * Creating a role with a typed name and description but without touching a
   * checkbox sends no `permissionIds` at all; with an empty name nothing is sent.
   */
  method UntouchedCreate(name: string, description: string) returns (r: Option<RoleRequest>)
    ensures r.Some? <==> name != []
    ensures r.Some? ==> r.value == CreateRole(RoleBody(name, description, None))
  {
    var form := new Form();
    form.name, form.description := name, description;
    var error;
    r, error := form.HandleSubmit([]);
  }

  /** Checking one box on a fresh form selects exactly that permission. */
  method FirstCheck(name: string, description: string, permissionId: int) returns (r: Option<RoleRequest>)
    ensures r.Some? <==> name != []
    ensures r.Some? ==> r.value == CreateRole(RoleBody(name, description, Some([permissionId])))
  {
    var form := new Form();
    form.name, form.description := name, description;
    form.HandlePermissionChange(permissionId, true);
    assert Selection.Toggle([], permissionId, true) == [permissionId];
    var error;
    r, error := form.HandleSubmit([]);
  }
}
