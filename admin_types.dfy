/**
 * The records the user-administration client exchanges with its server:
 * permissions, roles, users and the create/update requests.
 */
module AdminTypes {
  import opened Seqs

  datatype Permission = Permission(id: int, name: string, description: Option<string>, resource: string, action: string)

  datatype Role = Role(id: int, name: string, description: Option<string>, permissions: seq<Permission>)

  datatype User = User(id: int, username: string, email: string, enabled: bool, roles: seq<Role>)

  /**
   * `CreateRoleRequest` and `UpdateRoleRequest` carry the same three fields;
   * `permissionIds` is None when the form never set it, and the request then
   * leaves the key out.
   */
  datatype RoleBody = RoleBody(name: string, description: string, permissionIds: Option<seq<int>>)

  /** A request the role form sends: a create, or an update of the role named by the route's id. */
  datatype RoleRequest = CreateRole(body: RoleBody) | UpdateRole(routeId: string, body: RoleBody)

  /** `roleIds` is None when the form never set it, and the request then leaves the key out. */
  datatype CreateUserRequest = CreateUserRequest(username: string, email: string, password: string, roleIds: Option<seq<int>>)

  /** The update leaves `password` out when it is not to change, and `roleIds` when the form never set it. */
  datatype UpdateUserRequest = UpdateUserRequest(username: string, email: string, password: Option<string>, roleIds: Option<seq<int>>)

  datatype UserRequest = CreateUser(create: CreateUserRequest) | UpdateUser(routeId: string, update: UpdateUserRequest)
}
