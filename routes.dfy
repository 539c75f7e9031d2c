/**
 * Route registration helpers (soda.go): `fixPath`, which rewrites the
 * Fiber-style path parameter `/:id` into the OpenAPI form `/{id}`, and
 * `Handle`, which names the operation (its summary and its operation ID)
 * before registering it under the rewritten path. The `Get`, `Post`, `Put`,
 * `Patch` and `Delete` shortcuts pass their method name to `Handle`.
 */
module Routes {
  import opened Text
  import opened Utils

  /** The length of the run of ASCII letters and digits at the start of `s`. */
  function AlnumRun(s: string): (k: nat)
    ensures k <= |s|
    ensures forall j :: 0 <= j < k ==> IsAsciiAlnum(s[j])
    ensures k < |s| ==> !IsAsciiAlnum(s[k])
  {
    if s != [] && IsAsciiAlnum(s[0]) then 1 + AlnumRun(s[1..]) else 0
  }

  /** The pattern `/:([0-9a-zA-Z]+)` matches at the start of `s`. */
  predicate ParamStart(s: string) {
    |s| >= 3 && s[0] == '/' && s[1] == ':' && IsAsciiAlnum(s[2])
  }

  /** No position of `s` starts a match of the pattern. */
  predicate NoParam(s: string) {
    s == [] || (!ParamStart(s) && NoParam(s[1..]))
  }

  /**
   * `fixPath`: `ReplaceAllString` with `/{${1}}`, scanning left to right; the
   * `+` is greedy, so each match takes the whole run of letters and digits,
   * and the scan resumes after it.
   */
  function FixPath(s: string): string
    decreases |s|
  {
    if ParamStart(s) then
      var k := 2 + AlnumRun(s[2..]);
      "/{" + s[2..k] + "}" + FixPath(s[k..])
    else if s == [] then []
    else [s[0]] + FixPath(s[1..])
  }

  /** `fixPath` keeps the first character: a match starts with `/` and is replaced by text starting with `/`. */
  lemma FixPathHead(s: string)
    requires s != []
    ensures FixPath(s) != [] && FixPath(s)[0] == s[0]
  {
  }

  /** A string without `/` has no match. */
  lemma {:induction false} NoSlashNoParam(s: string)
    requires '/' !in s
    ensures NoParam(s)
  {
    if s != [] {
      assert forall c :: c in s[1..] ==> c in s;
      NoSlashNoParam(s[1..]);
    }
  }

  /** Joining two strings without matches makes none when the first does not end in `/` or `/` and one more character. */
  lemma {:induction false} NoParamAppend(x: string, z: string)
    requires NoParam(x) && NoParam(z)
    requires |x| >= 1 ==> x[|x| - 1] != '/'
    requires |x| >= 2 ==> x[|x| - 2] != '/'
    ensures NoParam(x + z)
  {
    if x == [] {
      assert x + z == z;
    } else {
      assert (x + z)[1..] == x[1..] + z;
      if |x| >= 3 {
        assert (x + z)[..3] == x[..3];
      }
      NoParamAppend(x[1..], z);
    }
  }

  /** Every match is rewritten: no `/:` followed by a letter or digit is left in the result. */
  lemma {:induction false} FixPathComplete(s: string)
    ensures NoParam(FixPath(s))
    decreases |s|
  {
    if ParamStart(s) {
      var k := 2 + AlnumRun(s[2..]);
      var name := s[2..k];
      var x := "/{" + name + "}";
      FixPathComplete(s[k..]);
      assert forall j :: 0 <= j < |name| ==> IsAsciiAlnum(name[j]);
      assert x[1..] == ['{'] + name + ['}'];
      assert '/' !in x[1..] by {
        forall j | 0 <= j < |x[1..]| ensures x[1..][j] != '/' {
          if 1 <= j <= |name| {
            assert x[1..][j] == name[j - 1];
          }
        }
      }
      NoSlashNoParam(x[1..]);
      assert NoParam(x);
      NoParamAppend(x, FixPath(s[k..]));
    } else if s != [] {
      var t := s[1..];
      FixPathComplete(t);
      var r := [s[0]] + FixPath(t);
      assert r[1..] == FixPath(t);
      if t != [] {
        FixPathHead(t);
        if t[0] == ':' && |t| >= 2 {
          FixPathHead(t[1..]);
          assert FixPath(t) == [t[0]] + FixPath(t[1..]);
        }
      }
      assert !ParamStart(r);
    }
  }

  /** A path without a match is left unchanged. */
  lemma {:induction false} FixPathUnchanged(s: string)
    requires NoParam(s)
    ensures FixPath(s) == s
  {
    if s != [] {
      FixPathUnchanged(s[1..]);
    }
  }

  /** A path with a match is changed: `fixPath` is the identity exactly on paths without matches. */
  lemma {:induction false} FixPathChanges(s: string)
    requires !NoParam(s)
    ensures FixPath(s) != s
  {
    if ParamStart(s) {
      assert FixPath(s)[1] == '{';
    } else {
      FixPathChanges(s[1..]);
      assert FixPath(s)[1..] == FixPath(s[1..]);
    }
  }

  /** Rewriting twice is rewriting once. */
  lemma FixPathIdempotent(s: string)
    ensures FixPath(FixPath(s)) == FixPath(s)
  {
    FixPathComplete(s);
    FixPathUnchanged(FixPath(s));
  }

  /** A character that cannot start a match is copied. */
  lemma FixPathCons(c: char, rest: string)
    requires !(c == '/' && |rest| >= 2 && rest[0] == ':' && IsAsciiAlnum(rest[1]))
    ensures FixPath([c] + rest) == [c] + FixPath(rest)
  {
    assert ([c] + rest)[1..] == rest;
  }

  /** A prefix without `:` that does not end in `/` is copied unchanged. */
  lemma {:induction false} FixPathPrefix(a: string, t: string)
    requires ':' !in a
    requires a == [] || a[|a| - 1] != '/'
    ensures FixPath(a + t) == a + FixPath(t)
  {
    if a == [] {
      assert a + t == t;
    } else {
      var rest := a[1..] + t;
      assert a + t == [a[0]] + rest;
      if |a| >= 2 {
        assert rest[0] == a[1];
      }
      FixPathCons(a[0], rest);
      FixPathPrefix(a[1..], t);
    }
  }

  /** A run of letters and digits is taken whole. */
  lemma {:induction false} AlnumRunAll(name: string)
    requires forall j :: 0 <= j < |name| ==> IsAsciiAlnum(name[j])
    ensures AlnumRun(name) == |name|
  {
    if name != [] {
      AlnumRunAll(name[1..]);
    }
  }

  /** One parameter name at the end of the path becomes a braced name. */
  lemma FixPathParam(name: string)
    requires name != [] && forall j :: 0 <= j < |name| ==> IsAsciiAlnum(name[j])
    ensures FixPath("/:" + name) == "/{" + name + "}"
  {
    var s := "/:" + name;
    assert s[2..] == name;
    AlnumRunAll(name);
    assert ParamStart(s);
    assert s[2..2 + |name|] == name;
    assert s[2 + |name|..] == [];
  }

  /** The rewriting of the documented example: `/users/:id` is registered as `/users/{id}`. */
  lemma FixPathExample(prefix: string, name: string)
    requires prefix == "/users" && name == "id"
    ensures FixPath(prefix + "/:" + name) == prefix + "/{" + name + "}"
  {
    assert ':' !in prefix && prefix[|prefix| - 1] == 's';
    assert IsAsciiAlnum(name[0]) && IsAsciiAlnum(name[1]);
    FixPathParam(name);
    assert prefix + "/:" + name == prefix + ("/:" + name);
    FixPathPrefix(prefix, "/:" + name);
  }

  // ---------------------------------------------------------------------
  // Operations
  // ---------------------------------------------------------------------

  /** What `Handle` registers: the operation's path, method, summary and operation ID. */
  datatype Operation = Operation(path: string, httpMethod: string, summary: string, operationId: string)

  /** The title-cased non-empty segments, concatenated in order. */
  function TitledSegments(segments: seq<string>): string {
    if segments == [] then []
    else
      var last := segments[|segments| - 1];
      TitledSegments(segments[..|segments| - 1]) + (if last != "" then Title(last) else [])
  }

  /** The operation ID `Handle` builds for a path and method. */
  function OperationId(path: string, httpMethod: string): string {
    TitledSegments(Split(path, "/")) + httpMethod
  }

  /**
   * `Handle`: the summary is the method, a space and the raw path; the
   * operation ID is built segment by segment in a string builder; the
   * operation is registered under the rewritten path, which has no
   * `/:name` left.
   */
  method Handle(path: string, httpMethod: string) returns (op: Operation)
    ensures op == Operation(FixPath(path), httpMethod, httpMethod + " " + path, OperationId(path, httpMethod))
    ensures NoParam(op.path)
    ensures '/' !in httpMethod ==> '/' !in op.operationId
  {
    var summary := httpMethod + " " + path;
    var segments := Split(path, "/");
    var builder: string := [];
    for i := 0 to |segments|
      invariant builder == TitledSegments(segments[..i])
    {
      var p := segments[i];
      assert segments[..i + 1][..i] == segments[..i];
      if p != "" {
        builder := builder + Title(p);
      }
    }
    assert segments[..|segments|] == segments;
    builder := builder + httpMethod;
    op := Operation(FixPath(path), httpMethod, summary, builder);
    FixPathComplete(path);
    if '/' !in httpMethod {
      OperationIdNoSlash(path, httpMethod);
    }
  }

  /** No title-cased segment holds a `/`. */
  lemma {:induction false} TitledSegmentsNoSlash(segments: seq<string>)
    requires forall p :: p in segments ==> '/' !in p
    ensures '/' !in TitledSegments(segments)
  {
    if segments != [] {
      var last := segments[|segments| - 1];
      assert forall p :: p in segments[..|segments| - 1] ==> p in segments;
      TitledSegmentsNoSlash(segments[..|segments| - 1]);
      TitleKeepsChar(last, true, '/');
    }
  }

  /** A `/` in a piece is an occurrence of the separator `/`. */
  lemma SlashOccurs(p: string)
    requires '/' in p
    ensures Contains(p, "/")
  {
    var j :| 0 <= j < |p| && p[j] == '/';
    assert OccursAt(p, "/", j);
  }

  /** The operation ID has no `/` unless the method has one: the path's slashes are all dropped. */
  lemma OperationIdNoSlash(path: string, httpMethod: string)
    requires '/' !in httpMethod
    ensures '/' !in OperationId(path, httpMethod)
  {
    var segments := Split(path, "/");
    SplitPiecesAvoidSeparator(path, "/");
    forall p | p in segments ensures '/' !in p {
      if '/' in p {
        SlashOccurs(p);
        assert false;
      }
    }
    TitledSegmentsNoSlash(segments);
  }

  /** The operation ID ends with the method. */
  lemma OperationIdEndsWithMethod(path: string, httpMethod: string)
    ensures |OperationId(path, httpMethod)| >= |httpMethod|
    ensures OperationId(path, httpMethod)[|OperationId(path, httpMethod)| - |httpMethod|..] == httpMethod
  {
  }

  /** `strings.Title` of a segment of lower-case letters upper-cases its first letter. */
  lemma TitleWord(w: string)
    requires w != [] && forall j :: 0 <= j < |w| ==> IsAsciiLower(w[j])
    ensures Title(w) == [UpperChar(w[0])] + w[1..]
  {
    TitleLowerWord(w, true);
  }

  /** `strings.Title` of `:` followed by lower-case letters: `:` separates words, so the first letter is upper-cased. */
  lemma TitleColonWord(w: string)
    requires w != [] && forall j :: 0 <= j < |w| ==> IsAsciiLower(w[j])
    ensures Title([':'] + w) == [':', UpperChar(w[0])] + w[1..]
  {
    var s := [':'] + w;
    assert s[1..] == w;
    assert IsSeparator(':');
    TitleLowerWord(w, true);
  }

  /** The segments of the documented example path `/users/:id`. */
  lemma SplitExample(path: string, users: string, id: string)
    requires users == "users" && id == ":id" && path == "/" + users + "/" + id
    ensures Split(path, "/") == ["", users, id]
  {
    assert '/' !in users && '/' !in id;
    assert path == [] + ['/'] + (users + ['/'] + id);
    SplitCharNone(id, '/');
    SplitCharFirst(users, '/', id);
    SplitCharFirst([], '/', users + ['/'] + id);
  }

  /** Title-casing three segments, the first empty, concatenates the titles of the other two. */
  lemma TitledThree(a: string, b: string)
    requires a != [] && b != []
    ensures TitledSegments(["", a, b]) == Title(a) + Title(b)
  {
    var segments := ["", a, b];
    assert segments[..2] == ["", a];
    assert ["", a][..1] == [""];
    assert [""][..0] == [];
    assert TitledSegments([""]) == [];
    assert TitledSegments(["", a]) == Title(a);
  }

  /** `strings.Title("users")` is `Users`. */
  lemma TitleUsers(w: string)
    requires w == "users"
    ensures Title(w) == "Users"
  {
    assert forall j :: 0 <= j < |w| ==> IsAsciiLower(w[j]);
    TitleWord(w);
  }

  /** `strings.Title(":id")` is `:Id`. */
  lemma TitleId(w: string, v: string)
    requires v == "id" && w == [':'] + v
    ensures Title(w) == ":Id"
  {
    assert IsAsciiLower(v[0]) && IsAsciiLower(v[1]);
    TitleColonWord(v);
  }

  /** The operation ID of the documented example: `GET /users/:id` is named `Users:IdGET`. */
  lemma OperationIdExample(path: string, httpMethod: string)
    requires path == "/users/:id" && httpMethod == "GET"
    ensures OperationId(path, httpMethod) == "Users:IdGET"
  {
    var users, id := "users", ":id";
    assert path == "/" + users + "/" + id;
    SplitExample(path, users, id);
    TitledUsersId(["", users, id]);
    UsersIdGet("Users:Id", httpMethod);
  }

  lemma UsersIdGet(title: string, httpMethod: string)
    requires title == "Users:Id" && httpMethod == "GET"
    ensures title + httpMethod == "Users:IdGET"
  {
    assert |title + httpMethod| == 11;
  }

  /** The segments of `/users/:id` title-case to `Users:Id`. */
  lemma TitledUsersId(segments: seq<string>)
    requires segments == ["", "users", ":id"]
    ensures TitledSegments(segments) == "Users:Id"
  {
    TitledThree(segments[1], segments[2]);
    TitleUsers(segments[1]);
    TitleId(segments[2], "id");
  }

  method Get(path: string) returns (op: Operation)
    ensures op.httpMethod == "GET" && op.path == FixPath(path) && op.summary == "GET " + path
    ensures op.operationId == OperationId(path, "GET")
  {
    op := Handle(path, "GET");
  }

  method Post(path: string) returns (op: Operation)
    ensures op.httpMethod == "POST" && op.path == FixPath(path) && op.summary == "POST " + path
    ensures op.operationId == OperationId(path, "POST")
  {
    op := Handle(path, "POST");
  }

  method Put(path: string) returns (op: Operation)
    ensures op.httpMethod == "PUT" && op.path == FixPath(path) && op.summary == "PUT " + path
    ensures op.operationId == OperationId(path, "PUT")
  {
    op := Handle(path, "PUT");
  }

  method Patch(path: string) returns (op: Operation)
    ensures op.httpMethod == "PATCH" && op.path == FixPath(path) && op.summary == "PATCH " + path
    ensures op.operationId == OperationId(path, "PATCH")
  {
    op := Handle(path, "PATCH");
  }

  method Delete(path: string) returns (op: Operation)
    ensures op.httpMethod == "DELETE" && op.path == FixPath(path) && op.summary == "DELETE " + path
    ensures op.operationId == OperationId(path, "DELETE")
  {
    op := Handle(path, "DELETE");
  }
}
