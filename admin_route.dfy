/** The guard around the admin page. On mount `checkAdmin` reads the token and
    the cached user from local storage, grants access on a cached "admin" role,
    asks `/auth/me` when the cached role is some other non-empty role, and
    redirects otherwise; until it finishes only a spinner is shown. The server
    reply is a parameter. */
module AdminRoute {
  import opened Wrappers

  /** A user object as cached under "user" and as `/auth/me` returns it; "" stands for a missing field. */
  datatype ClientUser = ClientUser(id: string, name: string, email: string, role: string)

  /** The cached "user" entry: JSON text that parses to an object (an absent entry reads as `{}`,
      i.e. all fields missing), the text `null`, or text whose parse throws. */
  datatype Cached = Parsed(user: ClientUser) | NullUser | ParseError

  /** The outcome of `api.get('/auth/me')`. */
  datatype MeReply = Failed | Reported(user: ClientUser)

  datatype View = Spinner | Redirect(to: string) | Children

  /** State after `checkAdmin`: the user it accepted, whether loading is still on, the cached entry
      afterwards, and whether the server was asked. */
  datatype Check = Check(user: Option<ClientUser>, loading: bool, cached: Cached, consulted: bool)

  /** `checkAdmin`. A parse error throws before anything is set, and so does reading the role of a
      `null` entry once a token is present; in both cases loading never ends. */
  function CheckAdmin(token: string, cached: Cached, reply: MeReply): (c: Check)
    ensures c.loading <==> cached.ParseError? || (cached.NullUser? && token != "")
    ensures cached.NullUser? && token == "" ==> c == Check(None, false, cached, false)
    ensures c.consulted <==> token != "" && cached.Parsed? && cached.user.role != "" && cached.user.role != "admin"
    ensures c.user.Some? ==> c.user.value.role == "admin"
    ensures c.cached != cached ==> c.consulted && reply.Reported? && c.cached == Parsed(reply.user)
  {
    match cached
    case ParseError => Check(None, true, cached, false)
    case NullUser => Check(None, token != "", cached, false)
    case Parsed(stored) =>
      if token == "" || stored.role == "" then Check(None, false, cached, false)
      else if stored.role == "admin" then Check(Some(stored), false, cached, false)
      else
        match reply
        case Reported(u) =>
          if u.role == "admin" then Check(Some(u), false, Parsed(u), true)
          else Check(None, false, cached, true)
        case Failed => Check(None, false, cached, true)
  }

  /** The component's render: spinner while loading, otherwise the children for an admin user and a
      redirect to the dashboard for anyone else. */
  function Render(loading: bool, user: Option<ClientUser>): (v: View)
    ensures loading ==> v == Spinner
    ensures v == Children <==> !loading && user.Some? && user.value.role == "admin"
    ensures !loading && v != Children ==> v == Redirect("/dashboard")
  {
    if loading then Spinner
    else if user.None? || user.value.role != "admin" then Redirect("/dashboard")
    else Children
  }

  /** Access is granted exactly for a token with a cached admin role, or a token with another
      non-empty cached role that the server reports as admin; the server is asked only in the latter
      case, and the cache is overwritten only when the server grants. */
  lemma AccessDecision(token: string, cached: Cached, reply: MeReply)
    requires cached.Parsed?
    ensures var c := CheckAdmin(token, cached, reply);
            var role := cached.user.role;
            (Render(c.loading, c.user) == Children <==>
               token != "" && role != "" &&
               (role == "admin" || (reply.Reported? && reply.user.role == "admin"))) &&
            (token == "" || role == "" ==> Render(c.loading, c.user) == Redirect("/dashboard") && !c.consulted) &&
            (token != "" && role == "admin" ==> Render(c.loading, c.user) == Children && !c.consulted) &&
            (c.consulted && reply.Reported? && reply.user.role == "admin" ==> c.cached == Parsed(reply.user)) &&
            (c.consulted && (reply.Failed? || reply.user.role != "admin") ==>
               Render(c.loading, c.user) == Redirect("/dashboard"))
  {
  }

  /** The component's state and its local-storage entries. */
  class Route {
    var user: Option<ClientUser>
    var loading: bool
    var token: string
    var cached: Cached

    /** Mount: no user yet and loading, over whatever local storage holds. */
    constructor (storedToken: string, storedUser: Cached)
      ensures user.None? && loading && token == storedToken && cached == storedUser
    {
      user, loading := None, true;
      token, cached := storedToken, storedUser;
    }

    /** The effect running `checkAdmin` against local storage with `reply` as the server's answer;
        returns whether the server was asked. */
    method RunCheck(reply: MeReply) returns (consulted: bool)
      requires user.None? && loading
      modifies this`user, this`loading, this`cached
      ensures var c := CheckAdmin(token, old(cached), reply);
              user == c.user && loading == c.loading && cached == c.cached && consulted == c.consulted
    {
      match cached
      case ParseError =>
        return false;
      case NullUser =>
        if token == "" {
          loading := false;
        }
        return false;
      case Parsed(stored) =>
        if token == "" || stored.role == "" {
          loading := false;
          return false;
        }
        if stored.role == "admin" {
          user := Some(stored);
          consulted := false;
        } else {
          consulted := true;
          if reply.Reported? && reply.user.role == "admin" {
            user := Some(reply.user);
            cached := Parsed(reply.user);
          }
        }
        loading := false;
    }

    /** What the component renders in its current state. */
    function View(): (v: View)
      reads this
      ensures loading ==> v == Spinner
      ensures v == Children <==> !loading && user.Some? && user.value.role == "admin"
      ensures !loading && v != Children ==> v == Redirect("/dashboard")
    {
      Render(loading, user)
    }
  }
}
