/**
 * The request middleware: which pages an unauthenticated visitor, a buyer
 * and a seller may open, and where each is redirected otherwise.
 */
module Middleware {
  import opened Wrappers

  /** The session the auth provider reports for the request. */
  datatype Session =
    | Anonymous
      /** `user_metadata.role`, absent when the metadata has none. */
    | Authenticated(roleMeta: Option<string>)

  /** Either the request continues to the page, or the browser is sent to another path. */
  datatype Outcome = Pass | Redirect(path: string)

  /** `user_metadata.role || 'buyer'`: a missing or empty role counts as a buyer. */
  function EffectiveRole(roleMeta: Option<string>): (role: string)
    ensures role != ""
    ensures roleMeta.Some? && roleMeta.value != "" ==> role == roleMeta.value
    ensures roleMeta.None? || roleMeta.value == "" ==> role == "buyer"
  {
    match roleMeta
    case Some(r) => if r != "" then r else "buyer"
    case None => "buyer"
  }

  predicate StartsWith(path: string, prefix: string) {
    prefix <= path
  }

  /** The middleware's decision for one request, in the order its checks are written. */
  function Decide(session: Session, path: string): (out: Outcome)
    ensures session.Anonymous? ==> out == Pass || out == Redirect("/")
    ensures out.Redirect? ==> |out.path| >= 1 && out.path[0] == '/'
    ensures !StartsWith(path, "/buyer") && !StartsWith(path, "/seller") && path != "/" ==> out == Pass
  {
    if session.Anonymous?
       && !StartsWith(path, "/login")
       && !StartsWith(path, "/auth")
       && (StartsWith(path, "/buyer") || StartsWith(path, "/seller"))
    then Redirect("/")
    else if session.Authenticated? then
      var role := EffectiveRole(session.roleMeta);
      if role == "seller" && StartsWith(path, "/buyer") then Redirect("/seller/dashboard")
      else if role == "buyer" && StartsWith(path, "/seller") then Redirect("/buyer/dashboard")
      else if path == "/" then Redirect("/" + role + "/dashboard")
      else Pass
    else Pass
  }

  /** A path that differs from a prefix at an index within both does not start with it. */
  lemma DiffersAt(path: string, prefix: string, i: nat)
    requires i < |path| && i < |prefix| && path[i] != prefix[i]
    ensures !StartsWith(path, prefix)
  {
  }

  /** A visitor without a session is sent to the landing page from the buyer and seller areas, and only from those. */
  lemma AnonymousAccess(path: string)
    ensures Decide(Anonymous, path) == Redirect("/") <==> StartsWith(path, "/buyer") || StartsWith(path, "/seller")
    ensures Decide(Anonymous, path) != Redirect("/") ==> Decide(Anonymous, path) == Pass
  {
    if StartsWith(path, "/buyer") || StartsWith(path, "/seller") {
      assert path[1] == 'b' || path[1] == 's';
      DiffersAt(path, "/login", 1);
      DiffersAt(path, "/auth", 1);
    }
  }

  /** A session whose metadata has no role is treated as a buyer's. */
  lemma MissingRoleIsBuyer(path: string)
    ensures Decide(Authenticated(None), path) == Decide(Authenticated(Some("buyer")), path)
    ensures Decide(Authenticated(Some("")), path) == Decide(Authenticated(Some("buyer")), path)
  {
  }

  /** A seller is kept out of the buyer area, and a buyer out of the seller area. */
  lemma RoleSeparation(session: Session, path: string)
    requires session.Authenticated?
    ensures EffectiveRole(session.roleMeta) == "seller" && StartsWith(path, "/buyer") ==>
      Decide(session, path) == Redirect("/seller/dashboard")
    ensures EffectiveRole(session.roleMeta) == "buyer" && StartsWith(path, "/seller") ==>
      Decide(session, path) == Redirect("/buyer/dashboard")
  {
  }

  /** A signed-in user opening the landing page goes to their role's dashboard. */
  lemma SignedInRootGoesToDashboard(session: Session)
    requires session.Authenticated?
    ensures Decide(session, "/") == Redirect("/" + EffectiveRole(session.roleMeta) + "/dashboard")
  {
    assert !StartsWith("/", "/buyer") && !StartsWith("/", "/seller");
  }

  /** A signed-in user is passed through anywhere outside the other role's area and the landing page. */
  lemma SignedInElsewherePasses(session: Session, path: string)
    requires session.Authenticated?
    requires path != "/"
    requires !(EffectiveRole(session.roleMeta) == "seller" && StartsWith(path, "/buyer"))
    requires !(EffectiveRole(session.roleMeta) == "buyer" && StartsWith(path, "/seller"))
    ensures Decide(session, path) == Pass
  {
  }

  /** Every redirect lands on a path the same session is let through: no redirect loops. */
  lemma NoRedirectLoop(session: Session, path: string)
    requires Decide(session, path).Redirect?
    ensures Decide(session, Decide(session, path).path) == Pass
  {
    var target := Decide(session, path).path;
    if session.Anonymous? {
      assert target == "/";
      assert !StartsWith(target, "/buyer") && !StartsWith(target, "/seller");
    } else {
      var role := EffectiveRole(session.roleMeta);
      if role == "seller" && StartsWith(path, "/buyer") {
        DiffersAt(target, "/buyer", 1);
      } else if role == "buyer" && StartsWith(path, "/seller") {
        DiffersAt(target, "/seller", 1);
      } else {
        assert target == "/" + role + "/dashboard";
        assert |target| > 1;
        if role == "seller" {
          assert target == "/seller/dashboard";
          DiffersAt(target, "/buyer", 1);
        }
        if role == "buyer" {
          assert target == "/buyer/dashboard";
          DiffersAt(target, "/seller", 1);
        }
      }
    }
  }
}
