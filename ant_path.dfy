/**
 * An Ant-style URL pattern matcher, written for the endpoint permission
 * cache: `?` matches one character of a segment, `*` any run of characters
 * inside one segment, `{name}` one segment's worth of characters bound to a
 * variable (the value is not used), and a whole segment `**` any number of
 * segments, zero included. Paths and patterns are cut at `/`; empty pieces
 * are dropped, and a pattern that starts with `/` only matches a path that
 * does. The request matcher pairs such a pattern with an HTTP method.
 */
module AntPath {

  /** One element of a compiled segment pattern. */
  datatype SegTok = Lit(c: char) | OneChar | AnyRun

  /** A compiled pattern segment: `**`, or a sequence of segment tokens. */
  datatype PatSeg = Globstar | Seg(toks: seq<SegTok>)

  /** Index of the first `/` in `s`, or `|s|` when there is none. */
  function SegmentEnd(s: string): (k: nat)
    ensures k <= |s|
    ensures forall i :: 0 <= i < k ==> s[i] != '/'
    ensures k < |s| ==> s[k] == '/'
  {
    if s == [] || s[0] == '/' then 0 else 1 + SegmentEnd(s[1..])
  }

  /** The segments of a path: the non-empty pieces between slashes. */
  function Split(s: string): (r: seq<string>)
    ensures forall i :: 0 <= i < |r| ==> r[i] != [] && '/' !in r[i]
  {
    if s == [] then []
    else if s[0] == '/' then Split(s[1..])
    else
      var k := SegmentEnd(s);
      [s[..k]] + Split(s[k..])
  }

  /** A path built from segments, each preceded by a slash. */
  function Join(segs: seq<string>): string
  {
    if segs == [] then "" else "/" + segs[0] + Join(segs[1..])
  }

  /** Cutting a joined path gives back its segments, so no segment is lost or split. */
  lemma {:induction false} SplitJoin(segs: seq<string>)
    requires forall i :: 0 <= i < |segs| ==> segs[i] != [] && '/' !in segs[i]
    ensures Split(Join(segs)) == segs
  {
    if segs != [] {
      var w := segs[0];
      var rest := Join(segs[1..]);
      var s := "/" + w + rest;
      assert s[1..] == w + rest;
      assert rest == [] || rest[0] == '/';
      SegmentEndOf(w, rest);
      assert (w + rest)[..|w|] == w;
      assert (w + rest)[|w|..] == rest;
      SplitJoin(segs[1..]);
    }
  }

  lemma {:induction false} SegmentEndOf(w: string, rest: string)
    requires '/' !in w
    requires rest == [] || rest[0] == '/'
    ensures SegmentEnd(w + rest) == |w|
  {
    if w != [] {
      assert (w + rest)[1..] == w[1..] + rest;
      SegmentEndOf(w[1..], rest);
    } else {
      assert w + rest == rest;
    }
  }

  /** Compiles the characters of one pattern segment. */
  function Tokenize(s: string): seq<SegTok>
  {
    if s == [] then []
    else if s[0] == '*' then [AnyRun] + Tokenize(s[1..])
    else if s[0] == '?' then [OneChar] + Tokenize(s[1..])
    else if s[0] == '{' && VariableEnd(s) < |s| then [AnyRun] + Tokenize(s[VariableEnd(s) + 1..])
    else [Lit(s[0])] + Tokenize(s[1..])
  }

  /** For a segment starting with `{`: the index of the `}` that closes a non-empty variable name, else `|s|`. */
  function VariableEnd(s: string): (k: nat)
    requires s != [] && s[0] == '{'
    ensures 0 < k <= |s|
    ensures k < |s| ==> 1 < k && s[k] == '}'
  {
    var k := 1 + SegmentEndAt(s[1..], '}');
    if 1 < k < |s| then k else |s|
  }

  function SegmentEndAt(s: string, c: char): (k: nat)
    ensures k <= |s|
    ensures k < |s| ==> s[k] == c
  {
    if s == [] || s[0] == c then 0 else 1 + SegmentEndAt(s[1..], c)
  }

  /** Compiles a pattern into its segments. */
  function Compile(pattern: string): seq<PatSeg>
  {
    Map(Split(pattern))
  }

  function Map(segs: seq<string>): (r: seq<PatSeg>)
    ensures |r| == |segs|
  {
    if segs == [] then []
    else [if segs[0] == "**" then Globstar else Seg(Tokenize(segs[0]))] + Map(segs[1..])
  }

  /** Does one segment of a path fit one compiled segment pattern? */
  function SegMatch(toks: seq<SegTok>, s: string): bool
    decreases |toks| + |s|
  {
    if toks == [] then s == []
    else match toks[0]
      case Lit(c) => s != [] && s[0] == c && SegMatch(toks[1..], s[1..])
      case OneChar => s != [] && SegMatch(toks[1..], s[1..])
      case AnyRun => SegMatch(toks[1..], s) || (s != [] && SegMatch(toks, s[1..]))
  }

  /** Do the segments of a path fit the compiled pattern? */
  function PathMatch(ps: seq<PatSeg>, ss: seq<string>): bool
    decreases |ps| + |ss|
  {
    if ps == [] then ss == []
    else match ps[0]
      case Globstar => PathMatch(ps[1..], ss) || (ss != [] && PathMatch(ps, ss[1..]))
      case Seg(toks) => ss != [] && SegMatch(toks, ss[0]) && PathMatch(ps[1..], ss[1..])
  }

  /** The pattern test of a request matcher: the catch-all patterns (slash, two stars) match every path. */
  predicate Matches(pattern: string, path: string)
  {
    if pattern == "/**" || pattern == "**" then true
    else
      (pattern != [] && pattern[0] == '/') == (path != [] && path[0] == '/')
      && PathMatch(Compile(pattern), Split(path))
  }

  /** `Character.isWhitespace` */
  predicate IsJavaSpace(c: char)
  {
    c == ' ' || ('\t' <= c <= '\r') || ('\U{001C}' <= c <= '\U{001F}')
    || c == '\U{1680}' || ('\U{2000}' <= c <= '\U{2006}') || ('\U{2008}' <= c <= '\U{200A}')
    || c == '\U{2028}' || c == '\U{2029}' || c == '\U{205F}' || c == '\U{3000}'
  }

  /** `StringUtils.hasText`: some character that is not white space. */
  predicate HasText(s: string)
  {
    exists i :: 0 <= i < |s| && !IsJavaSpace(s[i])
  }

  /**
   * The method test of a request matcher: a rule without a method matches any
   * request; otherwise the names are compared exactly, as `HttpMethod.valueOf`
   * builds them.
   */
  predicate MethodMatches(ruleMethod: string, requestMethod: string)
  {
    !HasText(ruleMethod) || !HasText(requestMethod) || ruleMethod == requestMethod
  }

  // ---------------------------------------------------------------------------
  // Properties of the matcher

  /** `*` on its own accepts every segment. */
  lemma {:induction false} AnyRunMatchesAll(s: string)
    ensures SegMatch([AnyRun], s)
  {
    if s != [] {
      AnyRunMatchesAll(s[1..]);
    }
  }

  /** A segment pattern without wildcards matches exactly the segment it spells. */
  lemma {:induction false} LiteralSegMatch(w: string, s: string)
    requires forall i :: 0 <= i < |w| ==> w[i] != '*' && w[i] != '?' && w[i] != '{'
    ensures SegMatch(Tokenize(w), s) <==> s == w
  {
    if w != [] {
      assert Tokenize(w) == [Lit(w[0])] + Tokenize(w[1..]);
      LiteralSegMatch(w[1..], if s == [] then s else s[1..]);
      if s != [] && s[0] == w[0] {
        assert s == [s[0]] + s[1..] && w == [w[0]] + w[1..];
      }
    }
  }

  /** `**` alone accepts any list of segments. */
  lemma {:induction false} GlobstarMatchesAll(ss: seq<string>)
    ensures PathMatch([Globstar], ss)
  {
    if ss != [] {
      GlobstarMatchesAll(ss[1..]);
    } else {
      assert PathMatch([Globstar][1..], ss);
    }
  }

  /** Matches compose: a pattern prefix matching a path prefix and the rest matching the rest. */
  lemma {:induction false} PathMatchAppend(a: seq<PatSeg>, x: seq<string>, b: seq<PatSeg>, y: seq<string>)
    requires PathMatch(a, x) && PathMatch(b, y)
    ensures PathMatch(a + b, x + y)
    decreases |a| + |x|
  {
    if a == [] {
      assert a + b == b && x + y == y;
    } else {
      assert (a + b)[0] == a[0] && (a + b)[1..] == a[1..] + b;
      match a[0]
      case Globstar =>
        if PathMatch(a[1..], x) {
          PathMatchAppend(a[1..], x, b, y);
        } else {
          assert (x + y)[1..] == x[1..] + y;
          PathMatchAppend(a, x[1..], b, y);
        }
      case Seg(toks) =>
        assert (x + y)[0] == x[0] && (x + y)[1..] == x[1..] + y;
        PathMatchAppend(a[1..], x[1..], b, y);
    }
  }

  /** A pattern ending in a `**` segment accepts every path below a path its front part accepts. */
  lemma TrailingGlobstar(a: seq<PatSeg>, x: seq<string>, rest: seq<string>)
    requires PathMatch(a, x)
    ensures PathMatch(a + [Globstar], x + rest)
  {
    GlobstarMatchesAll(rest);
    PathMatchAppend(a, x, [Globstar], rest);
  }

  /** With no pattern left, only the empty path matches; with no path left, only `**` segments. */
  lemma {:induction false} SegmentsFixLength(ps: seq<PatSeg>, ss: seq<string>)
    requires forall i :: 0 <= i < |ps| ==> ps[i].Seg?
    ensures PathMatch(ps, ss) ==> |ss| == |ps|
  {
    if ps != [] && ss != [] {
      SegmentsFixLength(ps[1..], ss[1..]);
    }
  }

  // The documented examples. Constants keep the verifier from evaluating the
  // matcher on the literal strings character by character.
  const UsersOne: string := "/api/users/*"
  const UsersAny: string := "/api/users/**"
  const UserPath: string := "/api/users/42"
  const UserRolesPath: string := "/api/users/42/roles"

  lemma SplitUserPath()
    ensures Split(UserPath) == ["api", "users", "42"]
  {
    SplitJoin(["api", "users", "42"]);
    assert Join(["api", "users", "42"]) == UserPath;
  }

  lemma JoinUserRolesPath()
    ensures Join(["api", "users", "42", "roles"]) == UserRolesPath
  {
    JoinRolesTail();
    var segs := ["api", "users", "42", "roles"];
    assert segs[1..] == ["users", "42", "roles"];
    assert "/" + "api" + "/users/42/roles" == UserRolesPath;
  }

  lemma JoinRolesTail()
    ensures Join(["users", "42", "roles"]) == "/users/42/roles"
  {
    var segs := ["users", "42", "roles"];
    assert segs[2..] == ["roles"] && segs[1..] == ["42", "roles"];
    assert Join(segs[3..]) == "";
    assert Join(segs[2..]) == "/roles";
    assert Join(segs[1..]) == "/42/roles";
  }

  lemma SplitUserRolesPath()
    ensures Split(UserRolesPath) == ["api", "users", "42", "roles"]
  {
    var segs := ["api", "users", "42", "roles"];
    JoinUserRolesPath();
    assert forall i :: 0 <= i < |segs| ==> segs[i] != [] && '/' !in segs[i];
    SplitJoin(segs);
  }

  lemma SplitUsersOne()
    ensures Split(UsersOne) == ["api", "users", "*"]
  {
    SplitJoin(["api", "users", "*"]);
    assert Join(["api", "users", "*"]) == UsersOne;
  }

  lemma SplitUsersAny()
    ensures Split(UsersAny) == ["api", "users", "**"]
  {
    SplitJoin(["api", "users", "**"]);
    assert Join(["api", "users", "**"]) == UsersAny;
  }

  /** The literal front part `/api/users` of the example patterns accepts its own segments. */
  lemma ApiUsersPrefix()
    ensures PathMatch([Seg(Tokenize("api")), Seg(Tokenize("users"))], ["api", "users"])
  {
    var lits := [Seg(Tokenize("api")), Seg(Tokenize("users"))];
    var users := ["api", "users"];
    LiteralSegMatch("api", "api");
    LiteralSegMatch("users", "users");
    assert PathMatch(lits[2..], users[2..]);
    assert PathMatch(lits[1..], users[1..]);
  }

  lemma CompileUsersOne()
    ensures Compile(UsersOne) == [Seg(Tokenize("api")), Seg(Tokenize("users")), Seg([AnyRun])]
  {
    SplitUsersOne();
    assert Tokenize("*") == [AnyRun];
  }

  lemma CompileUsersAny()
    ensures Compile(UsersAny) == [Seg(Tokenize("api")), Seg(Tokenize("users")), Globstar]
  {
    SplitUsersAny();
  }

  /** Both example patterns and both example paths are rooted, and neither pattern is a catch-all. */
  lemma ExamplesRooted()
    ensures UsersOne != "/**" && UsersOne != "**" && UsersAny != "/**" && UsersAny != "**"
    ensures UsersOne[0] == '/' && UsersAny[0] == '/' && UserPath[0] == '/' && UserRolesPath[0] == '/'
  {
  }

  lemma StarAcceptsOneSegment()
    ensures PathMatch(Compile(UsersOne), Split(UserPath))
  {
    SplitUserPath();
    CompileUsersOne();
    var lits := [Seg(Tokenize("api")), Seg(Tokenize("users"))];
    ApiUsersPrefix();
    AnyRunMatchesAll("42");
    assert PathMatch([Seg([AnyRun])][1..], ["42"][1..]);
    PathMatchAppend(lits, ["api", "users"], [Seg([AnyRun])], ["42"]);
  }

  lemma StarRejectsTwoSegments()
    ensures !PathMatch(Compile(UsersOne), Split(UserRolesPath))
  {
    var ps := [Seg(Tokenize("api")), Seg(Tokenize("users")), Seg([AnyRun])];
    var ss := ["api", "users", "42", "roles"];
    SegmentsFixLength(ps, ss);
    assert !PathMatch(ps, ss);
    SplitUserRolesPath();
    CompileUsersOne();
  }

  lemma GlobstarAcceptsBoth()
    ensures PathMatch(Compile(UsersAny), Split(UserPath))
    ensures PathMatch(Compile(UsersAny), Split(UserRolesPath))
  {
    GlobstarAcceptsOne();
    GlobstarAcceptsTwo();
  }

  lemma GlobstarAcceptsOne()
    ensures PathMatch(Compile(UsersAny), Split(UserPath))
  {
    var lits := [Seg(Tokenize("api")), Seg(Tokenize("users"))];
    ApiUsersPrefix();
    TrailingGlobstar(lits, ["api", "users"], ["42"]);
    assert lits + [Globstar] == [Seg(Tokenize("api")), Seg(Tokenize("users")), Globstar];
    assert ["api", "users"] + ["42"] == ["api", "users", "42"];
    SplitUserPath();
    CompileUsersAny();
  }

  lemma GlobstarAcceptsTwo()
    ensures PathMatch(Compile(UsersAny), Split(UserRolesPath))
  {
    var lits := [Seg(Tokenize("api")), Seg(Tokenize("users"))];
    ApiUsersPrefix();
    TrailingGlobstar(lits, ["api", "users"], ["42", "roles"]);
    assert lits + [Globstar] == [Seg(Tokenize("api")), Seg(Tokenize("users")), Globstar];
    assert ["api", "users"] + ["42", "roles"] == ["api", "users", "42", "roles"];
    SplitUserRolesPath();
    CompileUsersAny();
  }

  /** The documented examples: `*` stays within one segment, `**` crosses segments. */
  lemma GlobExamples()
    ensures Matches(UsersOne, UserPath)
    ensures !Matches(UsersOne, UserRolesPath)
    ensures Matches(UsersAny, UserPath)
    ensures Matches(UsersAny, UserRolesPath)
  {
    ExamplesRooted();
    StarAcceptsOneSegment();
    StarRejectsTwoSegments();
    GlobstarAcceptsBoth();
  }
}
