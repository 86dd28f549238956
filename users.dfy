/** The signed-in user as the authentication context hands it to the views:
    only the fields the dashboard and the route guards read. */
module Users {

  datatype Role = Buyer | Seller | Agent

  datatype User = User(id: string, name: string, role: Role)

  /** The roles that may list properties and open the reports page. */
  predicate IsStaff(role: Role) {
    role == Seller || role == Agent
  }
}
