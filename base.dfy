/** Values shared by the server controller and the client pages of the
    spare-parts store: record identifiers, optional values, the logged-in
    user as the pages see it, and the client-side locations a page can
    navigate to. */
module Base {

  /** A database `_id`. Only equality of ids matters to the model. */
  type Id = nat

  datatype Option<T> = None | Some(value: T)

  /** The user held by the authentication context: its id, its role
      (`'admin'` or `'user'`) and its bearer token. */
  datatype User = User(id: Id, name: string, role: string, token: string)

  predicate IsAdmin(user: Option<User>)
  {
    user.Some? && user.value.role == "admin"
  }

  /** Client routes that the pages in this model navigate to. */
  datatype Location = LoginRoute | DashboardRoute | CartRoute | OrderRoute(id: Id)
}
