/** src/components/AdminRoute.tsx: the guard in front of the admin pages. */
module AdminRoute {
  import opened App

  /** Not signed in: back to "/"; signed in but not an admin: to the unit
      picker; an admin: the page. */
  function AdminRoute(isAuthed: bool, role: string): (g: Guard)
    ensures !isAuthed ==> g == Redirect("/")
    ensures isAuthed && role != "admin" ==> g == Redirect("/select-unit")
    ensures g == RenderChildren <==> isAuthed && role == "admin"
  {
    if !isAuthed then Redirect("/")
    else if role != "admin" then Redirect("/select-unit")
    else RenderChildren
  }

  /** The sign-in check comes first: whatever the role, a visitor who is not
      signed in is sent to "/", never to the unit picker; and the admin guard
      lets through no more than the plain guard does. */
  lemma {:induction false} AuthenticationFirst(role: string, other: string)
    ensures AdminRoute(false, role) == AdminRoute(false, other) == ProtectedRoute(false)
    ensures AdminRoute(false, role) != Redirect("/select-unit")
    ensures forall b: bool :: AdminRoute(b, role) == RenderChildren ==> ProtectedRoute(b) == RenderChildren
  {
  }
}
