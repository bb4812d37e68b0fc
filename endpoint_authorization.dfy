/**
 * The endpoint permission cache of the user administration service: rules
 * (HTTP method, URL pattern, permission name) read from the
 * `endpoint_permissions` table are compiled into request matchers, and every
 * request is allowed or denied by the first matcher that fits it.
 *
 * The concurrent hash map is modelled as a sequence of entries in iteration
 * order; `put` on a key already present replaces that entry's value where it
 * stands, as a map does.
 */
module EndpointAuthorization {
  import opened Seqs
  import AntPath

  /** A row of the `endpoint_permissions` table, with its permission's name. */
  datatype EndpointPermission = EndpointPermission(httpMethod: string, urlPattern: string, permission: string)

  /**
   * A request matcher as it stores its (URL pattern, HTTP method); two are
   * equal when both stored parts are. The empty method stands for none.
   */
  datatype Matcher = Matcher(pattern: string, httpMethod: string)

  /** One cache entry: a matcher and the name of the permission it requires. */
  datatype Entry = Entry(matcher: Matcher, permission: string)

  /** What the decision reads from an HTTP request. */
  datatype Request = Request(verb: string, path: string)

  /** An authenticated principal: its id and the names of its granted authorities. */
  datatype Authentication = Authentication(id: int, authorities: set<string>)

  /**
   * `new AntPathRequestMatcher(pattern, method)`: the bare two-star pattern
   * is stored as the rooted catch-all, and a method without text as none.
   */
  function NewMatcher(pattern: string, httpMethod: string): Matcher
  {
    Matcher(if pattern == "**" then "/**" else pattern, if AntPath.HasText(httpMethod) then httpMethod else "")
  }

  /** The cache key of a row: the matcher built from its pattern and method. */
  function KeyOf(row: EndpointPermission): Matcher
  {
    NewMatcher(row.urlPattern, row.httpMethod)
  }

  /** A pattern without text makes the matcher's constructor throw. */
  predicate Blank(row: EndpointPermission)
  {
    !AntPath.HasText(row.urlPattern)
  }

  /** How many rows a load puts before the first row with a blank pattern stops it. */
  function LoadedCount(rows: seq<EndpointPermission>): (k: nat)
    ensures k <= |rows|
    ensures forall j :: 0 <= j < k ==> !Blank(rows[j])
    ensures k < |rows| ==> Blank(rows[k])
    ensures k == |rows| <==> forall row :: row in rows ==> !Blank(row)
  {
    match FindIndex(rows, (row: EndpointPermission) => Blank(row))
    case None => |rows|
    case Some(k) => k
  }

  predicate RequestMatches(m: Matcher, r: Request)
  {
    AntPath.MethodMatches(m.httpMethod, r.verb) && AntPath.Matches(m.pattern, r.path)
  }

  /** No matcher appears twice in the cache. */
  predicate KeysUnique(cache: seq<Entry>)
  {
    forall i, j :: 0 <= i < j < |cache| ==> cache[i].matcher != cache[j].matcher
  }

  /** `Map.get`: the value stored under a key. */
  function Lookup(cache: seq<Entry>, key: Matcher): Option<string>
  {
    if cache == [] then None
    else if cache[0].matcher == key then Some(cache[0].permission)
    else Lookup(cache[1..], key)
  }

  /** `Map.put`: a key already present keeps its place and takes the new value; a new key goes last. */
  function Put(cache: seq<Entry>, key: Matcher, value: string): (r: seq<Entry>)
    ensures Entry(key, value) in r
    ensures |cache| <= |r| <= |cache| + 1
    ensures forall e :: e in cache && e.matcher != key ==> e in r
  {
    if cache == [] then [Entry(key, value)]
    else if cache[0].matcher == key then [Entry(key, value)] + cache[1..]
    else [cache[0]] + Put(cache[1..], key, value)
  }

  /** The cache that loading `rows` in order produces from an empty one. */
  function Build(rows: seq<EndpointPermission>): (r: seq<Entry>)
    ensures |r| <= |rows|
    ensures forall row :: row in rows ==> exists e :: e in r && e.matcher == KeyOf(row)
  {
    if rows == [] then []
    else
      var last := rows[|rows| - 1];
      Put(Build(rows[..|rows| - 1]), KeyOf(last), last.permission)
  }

  /** A row with text lets the load go on past it. */
  lemma LoadPasses(rows: seq<EndpointPermission>, i: nat)
    requires i <= LoadedCount(rows) && i < |rows| && !Blank(rows[i])
    ensures i + 1 <= LoadedCount(rows)
  {
  }

  /** One more row puts one more entry onto the cache built so far. */
  lemma BuildStep(rows: seq<EndpointPermission>, i: nat)
    requires i < |rows|
    ensures Build(rows[..i + 1]) == Put(Build(rows[..i]), KeyOf(rows[i]), rows[i].permission)
  {
    assert rows[..i + 1][..i] == rows[..i];
  }

  /** Reference: the permission of the last row carrying `key`, if any row does. */
  function LastRowFor(rows: seq<EndpointPermission>, key: Matcher): Option<string>
  {
    if rows == [] then None
    else if KeyOf(rows[|rows| - 1]) == key then Some(rows[|rows| - 1].permission)
    else LastRowFor(rows[..|rows| - 1], key)
  }

  /**
   * The decision of `check`: the first entry whose matcher fits the request
   * decides, by exact membership of its permission name among the
   * authorities; with no fitting entry the request is denied.
   */
  function Decide(cache: seq<Entry>, req: Request, auth: Authentication): bool
  {
    if cache == [] then false
    else if RequestMatches(cache[0].matcher, req) then cache[0].permission in auth.authorities
    else Decide(cache[1..], req, auth)
  }

  // ---------------------------------------------------------------------------
  // Loading

  /** After `put`, the key maps to the new value and every other key keeps its value. */
  lemma {:induction false} PutLookup(cache: seq<Entry>, key: Matcher, value: string, other: Matcher)
    ensures Lookup(Put(cache, key, value), other) == if other == key then Some(value) else Lookup(cache, other)
  {
    if cache != [] && cache[0].matcher != key {
      PutLookup(cache[1..], key, value, other);
    }
  }

  /** Every matcher in the cache has a value under `Lookup`. */
  lemma {:induction false} LookupPresent(cache: seq<Entry>, i: nat)
    requires KeysUnique(cache) && i < |cache|
    ensures Lookup(cache, cache[i].matcher) == Some(cache[i].permission)
  {
    if i > 0 {
      LookupPresent(cache[1..], i - 1);
    }
  }

  /** `put` adds no second entry for a key. */
  lemma {:induction false} PutKeysUnique(cache: seq<Entry>, key: Matcher, value: string)
    requires KeysUnique(cache)
    ensures KeysUnique(Put(cache, key, value))
    ensures forall e :: e in Put(cache, key, value) ==> e == Entry(key, value) || (e in cache && e.matcher != key)
  {
    if cache != [] && cache[0].matcher != key {
      PutKeysUnique(cache[1..], key, value);
      var r := Put(cache, key, value);
      forall i, j | 0 <= i < j < |r| ensures r[i].matcher != r[j].matcher {
        if i == 0 {
          assert r[j] in Put(cache[1..], key, value);
        }
      }
    }
  }

  /**
   * After a load the cache holds one entry per distinct (pattern, method) of
   * the rows, valued with the permission of the last row having that key.
   */
  lemma {:induction false} BuildContents(rows: seq<EndpointPermission>, key: Matcher)
    ensures KeysUnique(Build(rows))
    ensures Lookup(Build(rows), key) == LastRowFor(rows, key)
  {
    if rows != [] {
      var last := rows[|rows| - 1];
      BuildContents(rows[..|rows| - 1], key);
      PutKeysUnique(Build(rows[..|rows| - 1]), KeyOf(last), last.permission);
      PutLookup(Build(rows[..|rows| - 1]), KeyOf(last), last.permission, key);
    }
  }

  /** Every entry of a loaded cache comes from a row: nothing from before the load survives. */
  lemma {:induction false} BuildEntriesFromRows(rows: seq<EndpointPermission>, e: Entry)
    requires e in Build(rows)
    ensures exists row :: row in rows && KeyOf(row) == e.matcher && row.permission == e.permission
  {
    var last := rows[|rows| - 1];
    var front := rows[..|rows| - 1];
    BuildContents(front, e.matcher);
    PutKeysUnique(Build(front), KeyOf(last), last.permission);
    if e != Entry(KeyOf(last), last.permission) {
      BuildEntriesFromRows(front, e);
      var row :| row in front && KeyOf(row) == e.matcher && row.permission == e.permission;
      assert row in rows;
    }
  }

  // ---------------------------------------------------------------------------
  // Deciding

  /** Fail-closed: when no entry fits the request, it is denied whatever the authorities. */
  lemma {:induction false} FailClosed(cache: seq<Entry>, req: Request, auth: Authentication)
    requires forall i :: 0 <= i < |cache| ==> !RequestMatches(cache[i].matcher, req)
    ensures !Decide(cache, req, auth)
  {
    if cache != [] {
      FailClosed(cache[1..], req, auth);
    }
  }

  /** First match wins: the first fitting entry alone decides, by its permission. */
  lemma {:induction false} FirstMatchDecides(cache: seq<Entry>, req: Request, auth: Authentication, i: nat)
    requires i < |cache| && RequestMatches(cache[i].matcher, req)
    requires forall j :: 0 <= j < i ==> !RequestMatches(cache[j].matcher, req)
    ensures Decide(cache, req, auth) <==> cache[i].permission in auth.authorities
  {
    if i > 0 {
      FirstMatchDecides(cache[1..], req, auth, i - 1);
    }
  }

  /** Entries after a fitting one are never consulted: appending entries changes nothing. */
  lemma {:induction false} LaterEntriesIgnored(cache: seq<Entry>, more: seq<Entry>, req: Request, auth: Authentication)
    requires exists i :: 0 <= i < |cache| && RequestMatches(cache[i].matcher, req)
    ensures Decide(cache + more, req, auth) == Decide(cache, req, auth)
  {
    assert (cache + more)[0] == cache[0];
    if !RequestMatches(cache[0].matcher, req) {
      assert (cache + more)[1..] == cache[1..] + more;
      var i :| 0 <= i < |cache| && RequestMatches(cache[i].matcher, req);
      assert cache[1..][i - 1] == cache[i];
      LaterEntriesIgnored(cache[1..], more, req, auth);
    }
  }

  /** An allowed request was allowed by some fitting entry whose permission name is held verbatim. */
  lemma {:induction false} AllowedHasWitness(cache: seq<Entry>, req: Request, auth: Authentication)
    requires Decide(cache, req, auth)
    ensures exists i :: 0 <= i < |cache| && RequestMatches(cache[i].matcher, req) && cache[i].permission in auth.authorities
  {
    if !RequestMatches(cache[0].matcher, req) {
      AllowedHasWitness(cache[1..], req, auth);
      var i :| 0 <= i < |cache[1..]| && RequestMatches(cache[1..][i].matcher, req) && cache[1..][i].permission in auth.authorities;
      assert cache[i + 1] == cache[1..][i];
    } else {
      assert RequestMatches(cache[0].matcher, req) && cache[0].permission in auth.authorities;
    }
  }

  /** More authorities never turn an allow into a deny. */
  lemma {:induction false} DecideMonotone(cache: seq<Entry>, req: Request, a: Authentication, b: Authentication)
    requires a.authorities <= b.authorities
    ensures Decide(cache, req, a) ==> Decide(cache, req, b)
  {
    if cache != [] && !RequestMatches(cache[0].matcher, req) {
      DecideMonotone(cache[1..], req, a, b);
    }
  }

  /** Names are compared exactly: no case folding, prefix or hierarchy grants access. */
  lemma ExactNameComparison(m: Matcher, req: Request)
    requires RequestMatches(m, req)
    ensures !Decide([Entry(m, "ORDER_EDIT")], req, Authentication(7, {"order_edit", "ORDER_EDIT_ALL", "ORDER", "ROLE_ADMIN"}))
    ensures Decide([Entry(m, "ORDER_EDIT")], req, Authentication(7, {"ORDER_EDIT"}))
  {
  }

  // ---------------------------------------------------------------------------
  // Matcher keys

  /**
   * Two rows share a cache entry exactly when their patterns are equal or
   * both spell the catch-all, and their methods are equal or both lack text.
   */
  lemma SameKey(a: EndpointPermission, b: EndpointPermission)
    ensures KeyOf(a) == KeyOf(b) <==>
              (a.urlPattern == b.urlPattern || (a.urlPattern in {"**", "/**"} && b.urlPattern in {"**", "/**"}))
              && (a.httpMethod == b.httpMethod || (!AntPath.HasText(a.httpMethod) && !AntPath.HasText(b.httpMethod)))
  {
    if a.urlPattern == "**" || b.urlPattern == "**" {
      assert "**" != "/**" by { assert "**"[0] != "/**"[0]; }
    }
  }

  /** The stored spellings match the same requests as the row's own. */
  lemma KeyMatchesAsRow(row: EndpointPermission, req: Request)
    ensures RequestMatches(KeyOf(row), req) <==>
              AntPath.MethodMatches(row.httpMethod, req.verb) && AntPath.Matches(row.urlPattern, req.path)
  {
    if !AntPath.HasText(row.httpMethod) {
      assert !AntPath.HasText("");
    }
  }

  /**
   * Two GET rows whose patterns are the bare and the rooted catch-all share
   * one entry, so the later row's permission decides.
   */
  lemma CatchAllSpellingsShareEntry()
    ensures Build([EndpointPermission("GET", "**", "A"), EndpointPermission("GET", "/**", "B")])
            == [Entry(Matcher("/**", "GET"), "B")]
    ensures Decide(Build([EndpointPermission("GET", "**", "A"), EndpointPermission("GET", "/**", "B")]),
                   Request("GET", "/x"), Authentication(1, {"B"}))
  {
    var rows := [EndpointPermission("GET", "**", "A"), EndpointPermission("GET", "/**", "B")];
    assert AntPath.HasText("GET") by { assert !AntPath.IsJavaSpace("GET"[0]); }
    assert rows[..1] == [rows[0]];
    assert [rows[0]][..0] == [];
    assert Build(rows[..1]) == [Entry(Matcher("/**", "GET"), "A")];
  }

  /** A load stops at the first row with a blank pattern. */
  lemma LoadStopsAt(rows: seq<EndpointPermission>, i: nat)
    requires i < |rows| && Blank(rows[i])
    requires forall j :: 0 <= j < i ==> !Blank(rows[j])
    ensures LoadedCount(rows) == i
    ensures !(forall row :: row in rows ==> !Blank(row))
  {
    assert rows[i] in rows;
  }

  /** A load without a blank pattern puts every row. */
  lemma LoadCompletes(rows: seq<EndpointPermission>)
    requires forall j :: 0 <= j < |rows| ==> !Blank(rows[j])
    ensures LoadedCount(rows) == |rows| && rows[..LoadedCount(rows)] == rows
    ensures forall row :: row in rows ==> !Blank(row)
  {
  }

  /** The endpoint authorization manager: the permission cache and its two operations. */
  class DatabaseAuthorizationManager {
    var permissionCache: seq<Entry>

    /**
     * Building the manager performs one load of the table. A row with a blank
     * pattern makes that load, and so the constructor, throw: no manager exists.
     */
    constructor (table: seq<EndpointPermission>)
      requires forall row :: row in table ==> !Blank(row)
      ensures permissionCache == Build(table)
      ensures KeysUnique(permissionCache)
    {
      permissionCache := [];
      new;
      var completed := LoadPermissions(table);
      LoadCompletes(table);
    }

    /**
     * Clears the cache, then puts one entry per row, in row order. A row with
     * a blank pattern throws; `completed` is false then, and the cache keeps
     * the entries of the rows before it.
     */
    method LoadPermissions(rows: seq<EndpointPermission>) returns (completed: bool)
      modifies this
      ensures completed <==> forall row :: row in rows ==> !Blank(row)
      ensures permissionCache == Build(rows[..LoadedCount(rows)])
      ensures KeysUnique(permissionCache)
    {
      permissionCache := [];
      for i := 0 to |rows|
        invariant permissionCache == Build(rows[..i])
        invariant i <= LoadedCount(rows)
      {
        var p := rows[i];
        if Blank(p) {
          assert rows[i] in rows;
          BuildContents(rows[..i], Matcher("", ""));
          completed := false;
          return;
        }
        BuildStep(rows, i);
        LoadPasses(rows, i);
        permissionCache := Put(permissionCache, KeyOf(p), p.permission);
      }
      assert rows[..LoadedCount(rows)] == rows;
      BuildContents(rows, Matcher("", ""));
      completed := true;
    }

    /** Walks the entries in order and lets the first matcher that fits decide. */
    method Check(auth: Authentication, req: Request) returns (granted: bool)
      ensures granted == Decide(permissionCache, req, auth)
      ensures granted ==> (exists i :: 0 <= i < |permissionCache|
                                  && RequestMatches(permissionCache[i].matcher, req)
                                  && permissionCache[i].permission in auth.authorities)
    {
      var i := 0;
      while i < |permissionCache|
        invariant 0 <= i <= |permissionCache|
        invariant forall j :: 0 <= j < i ==> !RequestMatches(permissionCache[j].matcher, req)
      {
        var entry := permissionCache[i];
        if RequestMatches(entry.matcher, req) {
          granted := entry.permission in auth.authorities;
          FirstMatchDecides(permissionCache, req, auth, i);
          return;
        }
        i := i + 1;
      }
      FailClosed(permissionCache, req, auth);
      granted := false;
    }
  }

  /** Reloading an unchanged table leaves the same cache, and so the same decisions. */
  method ReloadIsIdempotent(m: DatabaseAuthorizationManager, table: seq<EndpointPermission>, req: Request, auth: Authentication)
    returns (d1: bool, d2: bool)
    modifies m
    ensures m.permissionCache == Build(table[..LoadedCount(table)])
    ensures d1 == d2 == Decide(Build(table[..LoadedCount(table)]), req, auth)
  {
    var c1 := m.LoadPermissions(table);
    d1 := m.Check(auth, req);
    var c2 := m.LoadPermissions(table);
    d2 := m.Check(auth, req);
  }
}
