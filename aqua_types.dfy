/**
 * The signed-in user of the water-station dashboard. The login form only
 * produces the three roles below.
 */
module AquaTypes {
  /** 'owner', 'manager' and 'delivery' (a rider). */
  datatype Role = Owner | Manager | DeliveryRole

  datatype User = User(id: string, name: string, email: string, role: Role)

  /** Owners and managers run the station; riders only deliver. */
  predicate IsStaffManager(role: Role)
  {
    role == Owner || role == Manager
  }
}
