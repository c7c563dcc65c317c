/** Role inheritance: the worklist that expands a user's roles, and permissions. */
module Rbac {

  datatype Role = Role(name: string)

  type Inheritance = map<Role, seq<Role>>

  function Parents(h: Inheritance, role: Role): seq<Role> {
    if role in h then h[role] else []
  }

  /** A chain of roles, each inheriting from the one before it. */
  predicate Chain(h: Inheritance, path: seq<Role>) {
    forall k :: 0 <= k < |path| - 1 ==> path[k + 1] in Parents(h, path[k])
  }

  ghost predicate Reaches(h: Inheritance, start: seq<Role>, role: Role) {
    exists path: seq<Role> :: path != [] && path[0] in start && path[|path| - 1] == role && Chain(h, path)
  }

  lemma ReachesStart(h: Inheritance, start: seq<Role>, role: Role)
    requires role in start
    ensures Reaches(h, start, role)
  {
    assert [role][0] in start && [role][|[role]| - 1] == role && Chain(h, [role]);
  }

  lemma ReachesParent(h: Inheritance, start: seq<Role>, role: Role, parent: Role)
    requires Reaches(h, start, role) && parent in Parents(h, role)
    ensures Reaches(h, start, parent)
  {
    var path :| path != [] && path[0] in start && path[|path| - 1] == role && Chain(h, path);
    var longer := path + [parent];
    assert longer[0] in start && longer[|longer| - 1] == parent && Chain(h, longer);
  }

  /** A set that holds the start and is closed under inheritance holds all that is reached. */
  lemma {:induction false} ClosedHoldsAll(h: Inheritance, start: seq<Role>, s: set<Role>, path: seq<Role>, k: nat)
    requires forall r :: r in start ==> r in s
    requires forall r, p :: r in s && p in Parents(h, r) ==> p in s
    requires k < |path| && path[0] in start && Chain(h, path)
    ensures path[k] in s
    decreases k
  {
    if k > 0 { ClosedHoldsAll(h, start, s, path, k - 1); }
  }

  predicate Closed(h: Inheritance, s: set<Role>) {
    forall r, p :: r in s && r in h && p in h[r] ==> p in s
  }

  /** The reachable roles are the least set that holds the start and, with a role, every role it
      inherits from. */
  lemma LeastClosed(h: Inheritance, start: seq<Role>, role: Role, s: set<Role>)
    ensures role in start ==> Reaches(h, start, role)
    ensures Reaches(h, start, role) && role in h ==> forall p :: p in h[role] ==> Reaches(h, start, p)
    ensures Reaches(h, start, role) && Closed(h, s) && (forall r :: r in start ==> r in s) ==> role in s
  {
    hide Reaches;
    if role in start { ReachesStart(h, start, role); }
    if Reaches(h, start, role) && role in h {
      forall p | p in h[role] ensures Reaches(h, start, p) { ReachesParent(h, start, role, p); }
    }
    if Reaches(h, start, role) && Closed(h, s) && (forall r :: r in start ==> r in s) {
      HoldsReached(h, start, s, role);
    }
  }

  /** Every name the worklist can meet. */
  function Names(h: Inheritance, start: seq<Role>): set<Role> {
    (set r | r in start) + set r, p | r in h && p in h[r] :: p
  }

  /** The worklist has visited reachable roles only, and misses nothing but what is on its stack. */
  ghost predicate WorkOk(h: Inheritance, roles: seq<Role>, names: set<Role>, visited: set<Role>, stack: seq<Role>) {
    && visited <= names && (forall r :: r in stack ==> r in names)
    && (forall r :: r in visited || r in stack ==> Reaches(h, roles, r))
    && (forall r :: r in roles ==> r in visited || r in stack)
    && forall r, p :: r in visited && p in Parents(h, r) ==> p in visited || p in stack
  }

  lemma WorkStarts(h: Inheritance, roles: seq<Role>)
    ensures WorkOk(h, roles, Names(h, roles), {}, roles)
  {
    hide Reaches;
    forall r | r in roles ensures Reaches(h, roles, r) { ReachesStart(h, roles, r); }
  }

  lemma WorkGoesOn(h: Inheritance,
                   roles: seq<Role>, visited: set<Role>, stack: seq<Role>, rest: seq<Role>, current: Role)
    requires WorkOk(h, roles, Names(h, roles), visited, stack) && stack == rest + [current]
    ensures current in Names(h, roles)
    ensures current in visited ==> WorkOk(h, roles, Names(h, roles), visited, rest)
    ensures current !in visited ==> WorkOk(h, roles, Names(h, roles), visited + {current}, rest + Parents(h, current))
  {
    hide Reaches;
    assert current in stack && forall r :: r in stack <==> r in rest || r == current;
    forall p | p in Parents(h, current) ensures Reaches(h, roles, p) { ReachesParent(h, roles, current, p); }
  }

  /** The roles reachable from the given ones, on any inheritance graph, cycles included. */
  method Expand(h: Inheritance, roles: seq<Role>) returns (visited: set<Role>)
    ensures forall r :: r in visited <==> Reaches(h, roles, r)
  {
    hide Reaches, WorkOk, Names;
    visited := {};
    var stack := roles;
    ghost var names := Names(h, roles);
    WorkStarts(h, roles);
    while stack != []
      invariant WorkOk(h, roles, names, visited, stack)
      decreases |names - visited|, |stack|
    {
      var current := stack[|stack| - 1];
      WorkGoesOn(h, roles, visited, stack, stack[..|stack| - 1], current);
      stack := stack[..|stack| - 1];
      if current !in visited {
        Smaller(names, visited, current);
        visited := visited + {current};
        stack := stack + Parents(h, current);
      }
    }
    WorkDone(h, roles, names, visited);
  }

  lemma WorkDone(h: Inheritance, roles: seq<Role>, names: set<Role>, visited: set<Role>)
    requires WorkOk(h, roles, names, visited, [])
    ensures forall r :: r in visited <==> Reaches(h, roles, r)
  {
    hide Reaches;
    forall r | Reaches(h, roles, r) ensures r in visited { HoldsReached(h, roles, visited, r); }
  }

  lemma HoldsReached(h: Inheritance, start: seq<Role>, s: set<Role>, role: Role)
    requires forall r :: r in start ==> r in s
    requires forall r, p :: r in s && p in Parents(h, r) ==> p in s
    requires Reaches(h, start, role)
    ensures role in s
  {
    var path :| path != [] && path[0] in start && path[|path| - 1] == role && Chain(h, path);
    ClosedHoldsAll(h, start, s, path, |path| - 1);
  }

  lemma Smaller(names: set<Role>, visited: set<Role>, x: Role)
    requires x in names && x !in visited
    ensures |names - (visited + {x})| < |names - visited|
  {
    assert names - visited == (names - (visited + {x})) + {x};
  }

  /** A permission is granted exactly when some reachable role carries it. */
  method HasPermission(h: Inheritance, grants: map<Role, seq<string>>, users: map<string, seq<Role>>, user: string,
                       permission: string)
    returns (granted: bool)
    ensures granted <==>
            exists r ::
              Reaches(h, if user in users then users[user] else [], r) && r in grants && permission in grants[r]
  {
    var base := if user in users then users[user] else [];
    var roles := Expand(h, base);
    var left := roles;
    while left != {}
      invariant left <= roles
      invariant forall r :: r in roles - left ==> !(r in grants && permission in grants[r])
      decreases |left|
    {
      var role :| role in left;
      left := left - {role};
      if role in grants && permission in grants[role] { return true; }
    }
    granted := false;
  }

  /** More roles or more inheritance never take a permission away. */
  lemma Monotone(h: Inheritance, h': Inheritance, start: seq<Role>, start': seq<Role>, role: Role)
    requires Reaches(h, start, role)
    requires forall r :: r in start ==> r in start'
    requires forall r, p :: p in Parents(h, r) ==> p in Parents(h', r)
    ensures Reaches(h', start', role)
  {
    var path :| path != [] && path[0] in start && path[|path| - 1] == role && Chain(h, path);
    assert path[0] in start' && Chain(h', path);
  }
}
