/** The Swagger UI's TransformToExternalPath hook: routes of the UI are
    prefixed with the request's path base (set from the X-External-Path
    header behind the reverse proxy) unless they already start with it. */
module SwaggerExternalPath {
  import opened Wrappers
  import Text

  /** request.PathBase.Value was null: StartsWith(null) throws
      ArgumentNullException. */
  datatype PathError = NullPathBase

  /** The path base with one trailing '/' removed, if it has one. */
  function TrimTrailingSlash(pathBase: string): (trimmed: string)
    ensures Text.EndsWith(pathBase, "/") ==> trimmed + "/" == pathBase
    ensures !Text.EndsWith(pathBase, "/") ==> trimmed == pathBase
  {
    if Text.EndsWith(pathBase, "/") then pathBase[..|pathBase| - 1] else pathBase
  }

  function TransformToExternalPath(internalUiRoute: string, pathBase: Option<string>): (r: Result<string, PathError>)
    ensures pathBase.None? <==> r.Failure?
    ensures pathBase.Some? ==> Text.StartsWith(r.value, TrimTrailingSlash(pathBase.value))
    ensures pathBase.Some? && Text.StartsWith(internalUiRoute, TrimTrailingSlash(pathBase.value)) ==>
      r.value == internalUiRoute
    ensures pathBase.Some? && !Text.StartsWith(internalUiRoute, TrimTrailingSlash(pathBase.value)) ==>
      r.value == TrimTrailingSlash(pathBase.value) + internalUiRoute
  {
    match pathBase
    case None => Failure(NullPathBase)
    case Some(value) =>
      var externalPath := TrimTrailingSlash(value);
      if !Text.StartsWith(internalUiRoute, externalPath) then Success(externalPath + internalUiRoute)
      else Success(internalUiRoute)
  }

  /** Rewriting a rewritten route again changes nothing. */
  lemma TransformIdempotent(internalUiRoute: string, pathBase: string)
    ensures var once := TransformToExternalPath(internalUiRoute, Some(pathBase)).value;
      TransformToExternalPath(once, Some(pathBase)) == Success(once)
  {
  }

  /** An empty path base, or one that is a lone '/', leaves every route as
      it is. */
  lemma EmptyPathBaseIsIdentity(internalUiRoute: string)
    ensures TransformToExternalPath(internalUiRoute, Some("")) == Success(internalUiRoute)
    ensures TransformToExternalPath(internalUiRoute, Some("/")) == Success(internalUiRoute)
  {
    assert Text.StartsWith(internalUiRoute, "");
    assert TrimTrailingSlash("/") == "";
  }

  /** Only one trailing '/' is removed: a path base ending in "//" keeps one
      of them, so routes beginning with that '/' still get the prefix. */
  lemma OneSlashTrimmed(p: string, route: string)
    requires !Text.StartsWith(route, p + "/")
    ensures TrimTrailingSlash(p + "//") == p + "/"
    ensures TransformToExternalPath(route, Some(p + "//")) == Success(p + "/" + route)
  {
    assert (p + "//")[..|p + "//"| - 1] == p + "/";
  }

  /** A route that already carries the path base is returned as it is,
      whether or not the configured base has its trailing '/'. */
  lemma PrefixedRouteRecognised(base: string, route: string)
    requires !Text.EndsWith(base, "/")
    ensures TransformToExternalPath(base + route, Some(base)) == Success(base + route)
    ensures TransformToExternalPath(base + route, Some(base + "/")) == Success(base + route)
  {
    assert (base + route)[..|base|] == base;
    assert (base + "/")[..|base + "/"| - 1] == base;
  }
}
