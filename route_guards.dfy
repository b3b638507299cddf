// Route configuration helpers of the front end
// (frontend/src/routes/guards/utils.ts): wrapping guarded pages and checking
// and repairing route metadata.
module RouteGuards {
  import opened Wrappers

  /** The metadata flags; an absent flag is `false`. */
  datatype RouteMeta = RouteMeta(requireAuth: bool, requireAdmin: bool, guestOnly: bool)

  /** A page element, possibly wrapped in a guard that carries the metadata. */
  datatype Element = Page(id: string) | RouteGuard(meta: RouteMeta, child: Element)

  datatype Route = Route(path: Option<string>, meta: Option<RouteMeta>, element: Option<Element>, children: Children)

  /** A route's optional `children` array. */
  datatype Children = NoChildren | Children(routes: seq<Route>)

  /** A route as handed to the router: no metadata of its own. */
  datatype RouteObject = RouteObject(path: Option<string>, element: Option<Element>, children: ObjectChildren)

  datatype ObjectChildren = NoObjects | Objects(objects: seq<RouteObject>)

  /** The route tree without its elements and metadata: paths, order and
      nesting. */
  datatype Shape = Shape(path: Option<string>, children: Option<seq<Shape>>)

  function ShapeOfRoute(r: Route): Shape {
    match r.children
    case NoChildren => Shape(r.path, None)
    case Children(cs) => Shape(r.path, Some(seq(|cs|, i requires 0 <= i < |cs| => ShapeOfRoute(cs[i]))))
  }

  function ShapeOfObject(o: RouteObject): Shape {
    match o.children
    case NoObjects => Shape(o.path, None)
    case Objects(cs) => Shape(o.path, Some(seq(|cs|, i requires 0 <= i < |cs| => ShapeOfObject(cs[i]))))
  }

  // ---------------------------------------------------------------------
  // processRoutes
  // ---------------------------------------------------------------------

  /** One route of `processRoutes`: the element is wrapped in a guard exactly
      when both metadata and an element are present, and the children are
      processed in turn. */
  function ProcessRoute(r: Route): (o: RouteObject)
    ensures o.path == r.path
    ensures r.meta.Some? && r.element.Some? ==> o.element == Some(RouteGuard(r.meta.value, r.element.value))
    ensures r.meta.None? || r.element.None? ==> o.element == r.element
    ensures o.children.Objects? <==> r.children.Children?
  {
    var element := if r.meta.Some? && r.element.Some? then Some(RouteGuard(r.meta.value, r.element.value)) else r.element;
    match r.children
    case NoChildren => RouteObject(r.path, element, NoObjects)
    case Children(cs) => RouteObject(r.path, element, Objects(seq(|cs|, i requires 0 <= i < |cs| => ProcessRoute(cs[i]))))
  }

  /** `processRoutes` */
  function ProcessRoutes(routes: seq<Route>): (r: seq<RouteObject>)
    ensures |r| == |routes|
    ensures forall i :: 0 <= i < |routes| ==> r[i].path == routes[i].path
  {
    seq(|routes|, i requires 0 <= i < |routes| => ProcessRoute(routes[i]))
  }

  /** Processing keeps the number, order and nesting of the routes at every
      level. */
  lemma {:induction false} ProcessRoutePreservesShape(r: Route)
    ensures ShapeOfObject(ProcessRoute(r)) == ShapeOfRoute(r)
    decreases r
  {
    match r.children
    case NoChildren =>
    case Children(cs) =>
      var os := ProcessRoute(r).children.objects;
      forall i | 0 <= i < |cs|
        ensures ShapeOfObject(os[i]) == ShapeOfRoute(cs[i])
      {
        ProcessRoutePreservesShape(cs[i]);
      }
      var a := seq(|os|, i requires 0 <= i < |os| => ShapeOfObject(os[i]));
      var b := seq(|cs|, i requires 0 <= i < |cs| => ShapeOfRoute(cs[i]));
      assert a == b;
      assert ShapeOfObject(ProcessRoute(r)) == Shape(r.path, Some(a));
  }

  lemma ProcessRoutesPreservesShape(routes: seq<Route>)
    ensures forall i :: 0 <= i < |routes| ==> ShapeOfObject(ProcessRoutes(routes)[i]) == ShapeOfRoute(routes[i])
  {
    forall i | 0 <= i < |routes|
      ensures ShapeOfObject(ProcessRoutes(routes)[i]) == ShapeOfRoute(routes[i])
    {
      ProcessRoutePreservesShape(routes[i]);
    }
  }

  // ---------------------------------------------------------------------
  // validateRouteConfig
  // ---------------------------------------------------------------------

  /** A route's path in a template literal: an absent one prints as
      `undefined`. */
  function PathText(path: Option<string>): string {
    if path.Some? then path.value else "undefined"
  }

  function ConflictMessage(path: Option<string>, flag: string): string {
    "Invalid route configuration for \"" + PathText(path) + "\": Cannot have both guestOnly and " + flag
  }

  predicate Conflicting(m: RouteMeta) {
    m.guestOnly && (m.requireAuth || m.requireAdmin)
  }

  /** The checks and the repair on one route's metadata: a guest-only route
      may not require authentication, then may not require an admin; an
      admin route is made to require authentication. */
  function CheckMeta(path: Option<string>, m: RouteMeta): (r: Result<RouteMeta, string>)
    ensures r.Failure? <==> Conflicting(m)
    ensures r.Failure? ==> r.error == ConflictMessage(path, if m.requireAuth then "requireAuth" else "requireAdmin")
    ensures r.Success? ==> r.value == m.(requireAuth := m.requireAuth || m.requireAdmin)
  {
    if m.guestOnly && m.requireAuth then Failure(ConflictMessage(path, "requireAuth"))
    else if m.guestOnly && m.requireAdmin then Failure(ConflictMessage(path, "requireAdmin"))
    else if m.requireAdmin && !m.requireAuth then Success(m.(requireAuth := true))
    else Success(m)
  }

  /** One route of the walk: its own metadata first, then its children in
      order. On an error the route keeps what was repaired before it. */
  function FixRoute(r: Route): (Route, Option<string>)
    decreases r
  {
    var checked := if r.meta.Some? then CheckMeta(r.path, r.meta.value) else Success(RouteMeta(false, false, false));
    if checked.Failure? then (r, Some(checked.error))
    else
      var r1 := if r.meta.Some? then r.(meta := Some(checked.value)) else r;
      match r.children
      case NoChildren => (r1, None)
      case Children(cs) =>
        var (fixed, error) := FixRoutes(cs, 0);
        (r1.(children := Children(fixed)), error)
  }

  /** The walk over `routes[i..]`: the repaired routes, with the ones after
      an error left as they were, and the first error. */
  function FixRoutes(routes: seq<Route>, i: nat): (Result: (seq<Route>, Option<string>))
    requires i <= |routes|
    ensures |Result.0| == |routes| - i
    decreases routes, |routes| - i
  {
    if i == |routes| then ([], None)
    else
      var (r, error) := FixRoute(routes[i]);
      if error.Some? then ([r] + routes[i + 1..], error)
      else
        var (rest, error') := FixRoutes(routes, i + 1);
        ([r] + rest, error')
  }

  /** Every admin route at any depth also requires authentication. */
  predicate AdminsAuthed(r: Route)
    decreases r
  {
    && (r.meta.Some? && r.meta.value.requireAdmin ==> r.meta.value.requireAuth)
    && (r.children.Children? ==> forall i :: 0 <= i < |r.children.routes| ==> AdminsAuthed(r.children.routes[i]))
  }

  /** Some route at any depth is guest-only and requires authentication or an
      admin. */
  predicate HasConflict(r: Route)
    decreases r
  {
    || (r.meta.Some? && Conflicting(r.meta.value))
    || (r.children.Children? && exists i :: 0 <= i < |r.children.routes| && HasConflict(r.children.routes[i]))
  }

  /** `b` is `a` with some `requireAuth` flags set and nothing else changed:
      same paths, elements and nesting, and no metadata added. */
  predicate Raised(a: Route, b: Route)
    decreases a
  {
    && a.path == b.path && a.element == b.element
    && (a.meta.None? ==> b.meta.None?)
    && (a.meta.Some? ==> b.meta.Some? && b.meta.value.(requireAuth := a.meta.value.requireAuth) == a.meta.value
                         && (a.meta.value.requireAuth ==> b.meta.value.requireAuth))
    && (a.children.NoChildren? <==> b.children.NoChildren?)
    && (a.children.Children? ==>
          && |a.children.routes| == |b.children.routes|
          && forall i :: 0 <= i < |a.children.routes| ==> Raised(a.children.routes[i], b.children.routes[i]))
  }

  lemma {:induction false} RaisedReflexive(r: Route)
    ensures Raised(r, r)
    decreases r
  {
    if r.children.Children? {
      forall i | 0 <= i < |r.children.routes|
        ensures Raised(r.children.routes[i], r.children.routes[i])
      {
        RaisedReflexive(r.children.routes[i]);
      }
    }
  }

  /** The walk of one route succeeds exactly when no route in it conflicts,
      and then every admin route in the result requires authentication. */
  lemma {:induction false} FixRouteSucceeds(r: Route)
    ensures FixRoute(r).1.None? <==> !HasConflict(r)
    ensures FixRoute(r).1.None? ==> AdminsAuthed(FixRoute(r).0)
    decreases r
  {
    if r.children.Children? && (r.meta.None? || !Conflicting(r.meta.value)) {
      var cs := r.children.routes;
      FixRoutesSucceed(cs, 0);
      var f := FixRoute(r).0;
      assert f.children.routes == FixRoutes(cs, 0).0;
    }
  }

  lemma {:induction false} FixRoutesSucceed(routes: seq<Route>, i: nat)
    requires i <= |routes|
    ensures FixRoutes(routes, i).1.None? <==> forall j :: i <= j < |routes| ==> !HasConflict(routes[j])
    ensures FixRoutes(routes, i).1.None? ==> forall j :: 0 <= j < |routes| - i ==> AdminsAuthed(FixRoutes(routes, i).0[j])
    decreases routes, |routes| - i
  {
    if i < |routes| {
      FixRouteSucceeds(routes[i]);
      if FixRoute(routes[i]).1.None? {
        FixRoutesSucceed(routes, i + 1);
        var f := FixRoutes(routes, i).0;
        assert f == [FixRoute(routes[i]).0] + FixRoutes(routes, i + 1).0;
      }
    }
  }

  /** The walk only ever sets `requireAuth`; it adds, removes and reorders
      nothing, and leaves routes without metadata as they were. */
  lemma {:induction false} FixRouteRaises(r: Route)
    ensures Raised(r, FixRoute(r).0)
    decreases r
  {
    var checked := if r.meta.Some? then CheckMeta(r.path, r.meta.value) else Success(RouteMeta(false, false, false));
    if checked.Failure? {
      RaisedReflexive(r);
    } else if r.children.Children? {
      var cs := r.children.routes;
      FixRoutesRaise(cs, 0);
      assert FixRoute(r).0.children.routes == FixRoutes(cs, 0).0;
    }
  }

  lemma {:induction false} FixRoutesRaise(routes: seq<Route>, i: nat)
    requires i <= |routes|
    ensures forall j :: 0 <= j < |routes| - i ==> Raised(routes[i + j], FixRoutes(routes, i).0[j])
    decreases routes, |routes| - i
  {
    if i < |routes| {
      FixRouteRaises(routes[i]);
      var f := FixRoutes(routes, i).0;
      if FixRoute(routes[i]).1.Some? {
        assert f == [FixRoute(routes[i]).0] + routes[i + 1..];
        forall j | 1 <= j < |routes| - i
          ensures Raised(routes[i + j], f[j])
        {
          RaisedReflexive(routes[i + j]);
        }
      } else {
        FixRoutesRaise(routes, i + 1);
        assert f == [FixRoute(routes[i]).0] + FixRoutes(routes, i + 1).0;
      }
    }
  }

  /** On an error, the routes before the first conflicting one are fully
      repaired and those after it are untouched: repairs made before the
      throw persist. */
  lemma {:induction false} FixRoutesStopsAtFirstConflict(routes: seq<Route>, i: nat, k: nat)
    requires i <= k < |routes| && HasConflict(routes[k])
    requires forall j :: i <= j < k ==> !HasConflict(routes[j])
    ensures FixRoutes(routes, i).1.Some?
    ensures forall j :: 0 <= j < k - i ==> AdminsAuthed(FixRoutes(routes, i).0[j])
    ensures FixRoutes(routes, i).0[k - i + 1..] == routes[k + 1..]
    decreases |routes| - i
  {
    FixRouteSucceeds(routes[i]);
    var f := FixRoutes(routes, i).0;
    if i == k {
      assert f == [FixRoute(routes[i]).0] + routes[i + 1..];
    } else {
      FixRoutesStopsAtFirstConflict(routes, i + 1, k);
      var rest := FixRoutes(routes, i + 1).0;
      assert f == [FixRoute(routes[i]).0] + rest;
      forall j | 0 <= j < k - i
        ensures AdminsAuthed(f[j])
      {
        if j > 0 {
          assert f[j] == rest[j - 1];
        }
      }
      assert f[k - i + 1..] == rest[k - (i + 1) + 1..];
    }
  }

  /** `validateRouteConfig(routes)`: returns the routes as the walk leaves
      them and the error it throws, if any. The metadata objects the source
      edits in place are values here. */
  method ValidateRouteConfig(routes: seq<Route>) returns (fixed: seq<Route>, error: Option<string>)
    ensures (fixed, error) == FixRoutes(routes, 0)
    decreases routes, 0
  {
    fixed := [];
    assert fixed + FixRoutes(routes, 0).0 == FixRoutes(routes, 0).0;
    for i := 0 to |routes|
      invariant FixRoutes(routes, 0) == (fixed + FixRoutes(routes, i).0, FixRoutes(routes, i).1)
    {
      var route, routeError := ValidateRoute(routes[i]);
      if routeError.Some? {
        assert FixRoutes(routes, i).0 == [route] + routes[i + 1..];
        assert fixed + [route] + routes[i + 1..] == fixed + ([route] + routes[i + 1..]);
        return fixed + [route] + routes[i + 1..], routeError;
      }
      var rest := FixRoutes(routes, i + 1).0;
      assert FixRoutes(routes, i).0 == [route] + rest;
      assert fixed + [route] + rest == fixed + ([route] + rest);
      fixed := fixed + [route];
    }
    assert fixed + [] == fixed;
    error := None;
  }

  /** The body of the `forEach` for one route. */
  method ValidateRoute(r: Route) returns (route: Route, error: Option<string>)
    ensures (route, error) == FixRoute(r)
    decreases r, 1
  {
    route := r;
    if r.meta.Some? {
      var m := r.meta.value;
      if m.guestOnly && m.requireAuth {
        return r, Some(ConflictMessage(r.path, "requireAuth"));
      }
      if m.guestOnly && m.requireAdmin {
        return r, Some(ConflictMessage(r.path, "requireAdmin"));
      }
      if m.requireAdmin && !m.requireAuth {
        route := route.(meta := Some(m.(requireAuth := true)));
      }
    }
    if r.children.Children? {
      var children, childError := ValidateRouteConfig(r.children.routes);
      route := route.(children := Children(children));
      return route, childError;
    }
    error := None;
  }
}
