/** Splitting, joining and walking directory paths. Source: src/server/io.hpp:9-73, 116-126.
    The file system's directories are a fixed set of paths. */
module Paths {
  import opened Sequences

  function IndexOf(s: string, d: char): (i: nat)
    ensures i <= |s| && (forall k :: 0 <= k < i ==> s[k] != d)
    ensures i < |s| ==> s[i] == d
  {
    if s == "" || s[0] == d then 0 else 1 + IndexOf(s[1..], d)
  }

  /** getline until it fails: a trailing delimiter opens no further token. */
  function Split(s: string, d: char): seq<string>
    decreases |s|
  {
    if s == "" then []
    else
      var i := IndexOf(s, d);
      if i == |s| then [s] else [s[..i]] + Split(s[i + 1..], d)
  }

  ghost predicate Free(t: string, d: char) {
    forall k :: 0 <= k < |t| ==> t[k] != d
  }

  lemma SplitLast(t: string, d: char)
    requires t != "" && Free(t, d)
    ensures Split(t, d) == [t]
  {
  }

  lemma SplitCons(t: string, more: string, d: char)
    requires Free(t, d)
    ensures Split(t + [d] + more, d) == [t] + Split(more, d)
  {
    var s := t + [d] + more;
    assert s[|t|] == d && forall k :: 0 <= k < |t| ==> s[k] == t[k];
    assert IndexOf(s, d) == |t|;
    assert s[..|t|] == t && s[|t| + 1..] == more;
  }

  /** Every text is free of the delimiter or is a free token, a delimiter and a shorter text. */
  lemma Decompose(s: string, d: char) returns (t: string, more: string)
    ensures Free(t, d)
    ensures if Free(s, d) then t == s && more == "" else s == t + [d] + more
    ensures |more| < |s| || s == ""
  {
    var i := IndexOf(s, d);
    if i == |s| {
      t, more := s, "";
    } else {
      t, more := s[..i], s[i + 1..];
    }
  }

  function Join(tokens: seq<string>, d: char): string {
    if tokens == [] then ""
    else if |tokens| == 1 then tokens[0]
    else tokens[0] + [d] + Join(tokens[1..], d)
  }

  predicate EndsWith(s: string, d: char) {
    s != "" && s[|s| - 1] == d
  }

  ghost predicate Delimited(tokens: seq<string>, d: char) {
    forall k :: 0 <= k < |tokens| ==> Free(tokens[k], d)
  }

  lemma {:induction false} SplitIsDelimited(s: string, d: char)
    ensures Delimited(Split(s, d), d)
    decreases |s|
  {
    if s != "" {
      var i := IndexOf(s, d);
      if i < |s| {
        SplitIsDelimited(s[i + 1..], d);
      }
    }
  }

  lemma {:induction false} JoinEmptyLast(tokens: seq<string>, d: char)
    requires Delimited(tokens, d) && tokens != []
    ensures tokens[|tokens| - 1] == "" <==> Join(tokens, d) == "" || EndsWith(Join(tokens, d), d)
    ensures tokens[|tokens| - 1] != "" ==> Join(tokens, d) != ""
  {
    if |tokens| > 1 {
      JoinEmptyLast(tokens[1..], d);
    }
  }

  lemma {:induction false} JoinSnoc(tokens: seq<string>, x: string, d: char)
    ensures Join(tokens + [x], d) == if tokens == [] then x else Join(tokens, d) + [d] + x
  {
    if |tokens| == 1 {
      assert (tokens + [x])[1..] == [x];
    } else if |tokens| > 1 {
      assert (tokens + [x])[1..] == tokens[1..] + [x];
      JoinSnoc(tokens[1..], x, d);
    }
  }

  /** Printing what was parsed gives the text back, less one trailing delimiter. */
  lemma {:induction false} JoinOfSplit(s: string, d: char)
    ensures Join(Split(s, d), d) == if EndsWith(s, d) then s[..|s| - 1] else s
    decreases |s|
  {
    var t, more := Decompose(s, d);
    if Free(s, d) {
      if s != "" {
        SplitLast(s, d);
      }
    } else {
      SplitCons(t, more, d);
      JoinOfSplit(more, d);
      JoinCons(t, Split(more, d), d);
      if more == "" {
        assert s[..|s| - 1] == t;
      } else {
        assert more[|more| - 1] == s[|s| - 1];
        assert EndsWith(s, d) ==> s[..|s| - 1] == t + [d] + more[..|more| - 1];
      }
    }
  }

  lemma JoinCons(t: string, tokens: seq<string>, d: char)
    ensures Join([t] + tokens, d) == if tokens == [] then t else t + [d] + Join(tokens, d)
  {
    assert ([t] + tokens)[1..] == tokens;
  }

  lemma {:induction false} SplitOfJoinOk(tokens: seq<string>, d: char)
    requires Delimited(tokens, d) && (tokens != [] ==> tokens[|tokens| - 1] != "")
    ensures Split(Join(tokens, d), d) == tokens
  {
    if |tokens| == 1 {
      SplitLast(tokens[0], d);
    } else if |tokens| > 1 {
      SplitOfJoinOk(tokens[1..], d);
      SplitCons(tokens[0], Join(tokens[1..], d), d);
      assert [tokens[0]] + tokens[1..] == tokens;
    }
  }

  /** Parsing what was printed gives the tokens back exactly when no token holds the delimiter and
      the last token is not empty. */
  lemma SplitOfJoin(tokens: seq<string>, d: char)
    ensures Split(Join(tokens, d), d) == tokens <==>
            Delimited(tokens, d) && (tokens != [] ==> tokens[|tokens| - 1] != "")
  {
    if Delimited(tokens, d) && (tokens != [] ==> tokens[|tokens| - 1] != "") {
      SplitOfJoinOk(tokens, d);
    } else if Delimited(tokens, d) {
      JoinEmptyLast(tokens, d);
      if Split(Join(tokens, d), d) == tokens {
        JoinOfSplit(Join(tokens, d), d);
      }
    } else {
      SplitIsDelimited(Join(tokens, d), d);
    }
  }

  /** A delimiter after nothing, or after another delimiter, shows as an empty token. */
  function Gap(a: string, d: char): seq<string> {
    if a == "" || EndsWith(a, d) then [""] else []
  }

  lemma GapOfTail(t: string, more: string, d: char)
    ensures Gap(t + [d] + more, d) == Gap(more, d)
  {
    var a := t + [d] + more;
    assert a[|a| - 1] == if more == "" then d else more[|more| - 1];
  }

  lemma MoveBrackets(t: string, more: string, b: string, d: char)
    ensures t + [d] + more + [d] + b == t + [d] + (more + [d] + b)
  {
    var x, y := t + [d], [d] + b;
    assert x + more + [d] + b == x + more + y;
    assert more + [d] + b == more + y;
    assert x + more + y == x + (more + y);
  }

  lemma SplitConcatStep(t: string, more: string, b: string, d: char)
    requires Free(t, d)
    requires Split(more + [d] + b, d) == Split(more, d) + (Gap(more, d) + Split(b, d))
    ensures Split(t + [d] + more + [d] + b, d) ==
            Split(t + [d] + more, d) + (Gap(t + [d] + more, d) + Split(b, d))
  {
    MoveBrackets(t, more, b, d);
    SplitCons(t, more + [d] + b, d);
    SplitCons(t, more, d);
    GapOfTail(t, more, d);
    Regroup([t], Split(more, d), Gap(more, d) + Split(b, d));
  }

  lemma {:induction false} SplitConcat(a: string, b: string, d: char)
    ensures Split(a + [d] + b, d) == Split(a, d) + (Gap(a, d) + Split(b, d))
    decreases |a|
  {
    var t, more := Decompose(a, d);
    if Free(a, d) {
      SplitCons(a, b, d);
      if a != "" {
        SplitLast(a, d);
      }
    } else {
      SplitConcat(more, b, d);
      SplitConcatStep(t, more, b, d);
    }
  }

  // ---------- cd ----------

  /** The path components after following dest from parts, or None when a step names no directory. */
  function Walk(dirs: set<string>, parts: seq<string>, dest: seq<string>): Option<seq<string>>
    decreases |dest|
  {
    if dest == [] then Some(parts)
    else if dest[0] == ".." then
      Walk(dirs, if |parts| > 3 then parts[..|parts| - 1] else parts, dest[1..])
    else if dest[0] == "" || dest[0] == "." then Walk(dirs, parts, dest[1..])
    else if Join(parts + [dest[0]], '/') !in dirs then None
    else Walk(dirs, parts + [dest[0]], dest[1..])
  }

  /** The new path, or the empty string on failure. */
  function Cd(dirs: set<string>, current: string, dest: string): string {
    match Walk(dirs, Split(current, '/'), Split(dest, '/'))
    case None => ""
    case Some(parts) => Join(parts, '/')
  }

  lemma {:induction false} WalkAppend(dirs: set<string>, parts: seq<string>, a: seq<string>, b: seq<string>)
    ensures Walk(dirs, parts, a + b) ==
            match Walk(dirs, parts, a) case None => None case Some(q) => Walk(dirs, q, b)
    decreases |a|
  {
    if a == [] {
      assert a + b == b;
    } else {
      assert (a + b)[1..] == a[1..] + b;
      if a[0] == ".." {
        WalkAppend(dirs, if |parts| > 3 then parts[..|parts| - 1] else parts, a[1..], b);
      } else if a[0] == "" || a[0] == "." {
        WalkAppend(dirs, parts, a[1..], b);
      } else {
        WalkAppend(dirs, parts + [a[0]], a[1..], b);
      }
    }
  }

  ghost predicate NonEmptyParts(parts: seq<string>) {
    parts != [] && Delimited(parts, '/') && forall k :: 0 <= k < |parts| ==> parts[k] != ""
  }

  lemma {:induction false} WalkKeepsParts(dirs: set<string>, parts: seq<string>, dest: seq<string>)
    requires NonEmptyParts(parts) && Delimited(dest, '/') && Walk(dirs, parts, dest).Some?
    ensures NonEmptyParts(Walk(dirs, parts, dest).value)
    decreases |dest|
  {
    if dest != [] {
      assert Delimited(dest[1..], '/');
      if dest[0] == ".." {
        WalkKeepsParts(dirs, if |parts| > 3 then parts[..|parts| - 1] else parts, dest[1..]);
      } else if dest[0] == "" || dest[0] == "." {
        WalkKeepsParts(dirs, parts, dest[1..]);
      } else {
        WalkKeepsParts(dirs, parts + [dest[0]], dest[1..]);
      }
    }
  }

  /** Splitting then walking an existing result of Cd starts where Cd stopped. */
  lemma CdParts(dirs: set<string>, p: string, dest: string)
    requires NonEmptyParts(Split(p, '/'))
    ensures Cd(dirs, p, dest) == "" <==> Walk(dirs, Split(p, '/'), Split(dest, '/')).None?
    ensures Cd(dirs, p, dest) != "" ==>
              Walk(dirs, Split(p, '/'), Split(dest, '/')) == Some(Split(Cd(dirs, p, dest), '/')) &&
              NonEmptyParts(Split(Cd(dirs, p, dest), '/'))
  {
    var w := Walk(dirs, Split(p, '/'), Split(dest, '/'));
    SplitIsDelimited(dest, '/');
    if w.Some? {
      WalkKeepsParts(dirs, Split(p, '/'), Split(dest, '/'));
      SplitOfJoinOk(w.value, '/');
    }
  }

  /** Changing directory along a/b is changing along a and then along b, and fails when the first part does. */
  lemma CdComposes(dirs: set<string>, p: string, a: string, b: string)
    requires NonEmptyParts(Split(p, '/'))
    ensures Cd(dirs, p, a + "/" + b) ==
            if Cd(dirs, p, a) == "" then "" else Cd(dirs, Cd(dirs, p, a), b)
  {
    var parts, da, db := Split(p, '/'), Split(a, '/'), Split(b, '/');
    var gap := Gap(a, '/');
    assert a + "/" + b == a + ['/'] + b;
    SplitConcat(a, b, '/');
    WalkAppend(dirs, parts, da, gap + db);
    CdParts(dirs, p, a);
    var w := Walk(dirs, parts, da);
    if w.Some? {
      WalkGap(dirs, w.value, gap, db);
    }
  }

  lemma WalkGap(dirs: set<string>, parts: seq<string>, gap: seq<string>, dest: seq<string>)
    requires gap == [] || gap == [""]
    ensures Walk(dirs, parts, gap + dest) == Walk(dirs, parts, dest)
  {
    if gap == [] {
      assert gap + dest == dest;
    } else {
      assert (gap + dest)[1..] == dest;
    }
  }

  // ---------- a user's tree ----------

  predicate Component(x: string) {
    x != "" && x != "." && x != ".." && '/' !in x
  }

  ghost predicate RootedParts(parts: seq<string>, id: string) {
    |parts| >= 3 && parts[0] == "." && parts[1] == "tmp" && parts[2] == id &&
    forall k :: 3 <= k < |parts| ==> Component(parts[k])
  }

  /** path names the directory ./tmp/id or one below it, and has no trailing slash. */
  ghost predicate Rooted(path: string, id: string) {
    RootedParts(Split(path, '/'), id) && !EndsWith(path, '/')
  }

  predicate GoodId(id: string) {
    id != "" && '/' !in id
  }

  lemma RootedNonEmpty(path: string, id: string)
    requires Rooted(path, id) && GoodId(id)
    ensures NonEmptyParts(Split(path, '/')) && Join(Split(path, '/'), '/') == path && path != ""
  {
    hide Split, Join;
    var parts := Split(path, '/');
    SplitIsDelimited(path, '/');
    JoinOfSplit(path, '/');
    assert forall k :: 0 <= k < |parts| ==> k < 3 || Component(parts[k]);
    JoinEmptyLast(parts, '/');
  }

  lemma RootedJoin(parts: seq<string>, id: string)
    requires RootedParts(parts, id) && GoodId(id)
    ensures Rooted(Join(parts, '/'), id) && Split(Join(parts, '/'), '/') == parts
  {
    assert Delimited(parts, '/') by {
      forall k | 0 <= k < |parts| ensures '/' !in parts[k] {
        assert k == 0 || k == 1 || k == 2 || Component(parts[k]);
      }
    }
    SplitOfJoinOk(parts, '/');
    JoinEmptyLast(parts, '/');
  }

  lemma HomeIsRooted(id: string)
    requires GoodId(id)
    ensures Rooted("./tmp" + "/" + id, id) && Split("./tmp" + "/" + id, '/') == [".", "tmp", id]
  {
    hide Split, Rooted;
    RootedJoin([".", "tmp", id], id);
    JoinOfThree(".", "tmp", id, '/');
    assert "." + ['/'] + "tmp" == "./tmp";
  }

  lemma JoinOfThree(a: string, b: string, c: string, d: char)
    ensures Join([a, b, c], d) == a + [d] + b + [d] + c
  {
    JoinSnoc([a], b, d);
    JoinSnoc([a, b], c, d);
    assert [a] + [b] == [a, b] && [a, b] + [c] == [a, b, c];
  }

  lemma {:induction false} WalkKeepsRoot(dirs: set<string>, parts: seq<string>, dest: seq<string>, id: string)
    requires RootedParts(parts, id) && Delimited(dest, '/') && Walk(dirs, parts, dest).Some?
    ensures RootedParts(Walk(dirs, parts, dest).value, id)
    decreases |dest|
  {
    if dest != [] {
      assert Delimited(dest[1..], '/');
      if dest[0] == ".." {
        WalkKeepsRoot(dirs, if |parts| > 3 then parts[..|parts| - 1] else parts, dest[1..], id);
      } else if dest[0] == "" || dest[0] == "." {
        WalkKeepsRoot(dirs, parts, dest[1..], id);
      } else {
        assert Component(dest[0]);
        WalkKeepsRoot(dirs, parts + [dest[0]], dest[1..], id);
      }
    }
  }

  /** No destination whatever leads out of the user's own tree. */
  lemma CdKeepsRoot(dirs: set<string>, p: string, dest: string, id: string)
    requires Rooted(p, id) && GoodId(id) && Cd(dirs, p, dest) != ""
    ensures Rooted(Cd(dirs, p, dest), id)
  {
    RootedNonEmpty(p, id);
    CdParts(dirs, p, dest);
    SplitIsDelimited(dest, '/');
    WalkKeepsRoot(dirs, Split(p, '/'), Split(dest, '/'), id);
    RootedJoin(Walk(dirs, Split(p, '/'), Split(dest, '/')).value, id);
  }

  /** Going into a directory and up again is no move at all. */
  lemma CdThenUp(dirs: set<string>, p: string, name: string, id: string)
    requires Rooted(p, id) && GoodId(id) && Component(name) && p + "/" + name in dirs
    ensures Cd(dirs, p, name) == p + "/" + name
    ensures Cd(dirs, Cd(dirs, p, name), "..") == p
  {
    RootedNonEmpty(p, id);
    var parts := Split(p, '/');
    assert p + "/" + name == p + ['/'] + name;
    JoinSnoc(parts, name, '/');
    SplitLast(name, '/');
    assert [name][1..] == [];
    assert Walk(dirs, parts, [name]) == Some(parts + [name]);
    CdParts(dirs, p, name);
    SplitLast("..", '/');
    assert [".."][1..] == [];
    assert (parts + [name])[..|parts|] == parts;
  }

  // ---------- when cd succeeds ----------

  /** A component that is a name, not a dot. */
  predicate Names(x: string) {
    x != "" && x != "." && x != ".."
  }

  /** One component followed by its text alone: up but never above a user's own directory, down, or nowhere. */
  function Enter(parts: seq<string>, x: string): seq<string> {
    if Names(x) then parts + [x]
    else if x == ".." && |parts| > 3 then parts[..|parts| - 1]
    else parts
  }

  /** Where dest leads from parts, whatever directories there are. */
  function Lexical(parts: seq<string>, dest: seq<string>): seq<string> {
    if dest == [] then parts else Enter(Lexical(parts, dest[..|dest| - 1]), dest[|dest| - 1])
  }

  /** If component k of dest is a name, the path it leads to is a directory's. */
  ghost predicate EntersAt(dirs: set<string>, parts: seq<string>, dest: seq<string>, k: nat)
    requires k < |dest|
  {
    Names(dest[k]) ==> Join(Lexical(parts, dest[..k + 1]), '/') in dirs
  }

  ghost predicate Enters(dirs: set<string>, parts: seq<string>, dest: seq<string>) {
    forall k :: 0 <= k < |dest| ==> EntersAt(dirs, parts, dest, k)
  }

  /** Every directory that dest enters on its way from path is there. */
  ghost predicate EntersAll(dirs: set<string>, path: string, dest: string) {
    Enters(dirs, Split(path, '/'), Split(dest, '/'))
  }

  lemma WalkOne(dirs: set<string>, parts: seq<string>, x: string)
    ensures Walk(dirs, parts, [x]) ==
            if Names(x) && Join(Enter(parts, x), '/') !in dirs then None else Some(Enter(parts, x))
  {
    assert [x][1..] == [];
  }

  lemma EntersFront(dirs: set<string>, parts: seq<string>, front: seq<string>, x: string)
    ensures Enters(dirs, parts, front + [x]) <==>
            Enters(dirs, parts, front) && (Names(x) ==> Join(Enter(Lexical(parts, front), x), '/') in dirs)
  {
    hide Enter, Join, Names;
    var dest, n := front + [x], |front|;
    forall k | 0 <= k < n ensures EntersAt(dirs, parts, dest, k) <==> EntersAt(dirs, parts, front, k) {
      assert dest[..k + 1] == front[..k + 1];
    }
    assert dest[..n + 1] == dest && dest[..n] == front;
    assert EntersAt(dirs, parts, dest, n) <==> (Names(x) ==> Join(Enter(Lexical(parts, front), x), '/') in dirs);
  }

  /** A walk succeeds exactly when every directory it enters is there, and then it follows the text. */
  lemma {:induction false} WalkIff(dirs: set<string>, parts: seq<string>, dest: seq<string>)
    ensures Walk(dirs, parts, dest).Some? <==> Enters(dirs, parts, dest)
    ensures Walk(dirs, parts, dest).Some? ==> Walk(dirs, parts, dest).value == Lexical(parts, dest)
    decreases |dest|
  {
    hide Enter, Join, Names, EntersAt;
    if dest != [] {
      var front, x := dest[..|dest| - 1], dest[|dest| - 1];
      WalkIff(dirs, parts, front);
      assert dest == front + [x];
      WalkAppend(dirs, parts, front, [x]);
      EntersFront(dirs, parts, front, x);
      WalkOne(dirs, Lexical(parts, front), x);
    }
  }

  /** cd succeeds exactly when every directory entered on the way is there: the dots and empty components
      never make it fail. It then leads where the text of the destination says. */
  lemma CdSucceedsIff(dirs: set<string>, p: string, dest: string, id: string)
    requires Rooted(p, id) && GoodId(id)
    ensures Cd(dirs, p, dest) != "" <==> EntersAll(dirs, p, dest)
    ensures EntersAll(dirs, p, dest) ==> Cd(dirs, p, dest) == Join(Lexical(Split(p, '/'), Split(dest, '/')), '/')
  {
    hide Split, Join, Lexical, Enters, Walk, Rooted;
    RootedNonEmpty(p, id);
    CdParts(dirs, p, dest);
    WalkIff(dirs, Split(p, '/'), Split(dest, '/'));
  }

  /** One component: a name leads to the directory below if there is one, and nowhere if there is none. */
  lemma CdEnters(dirs: set<string>, p: string, name: string, id: string)
    requires Rooted(p, id) && GoodId(id) && Component(name)
    ensures Cd(dirs, p, name) == if p + "/" + name in dirs then p + "/" + name else ""
  {
    hide Split, Join, Rooted, Walk;
    RootedNonEmpty(p, id);
    NotEmpty(p, name);
    assert p + "/" + name == p + ['/'] + name;
    JoinSnoc(Split(p, '/'), name, '/');
    SplitLast(name, '/');
    WalkOne(dirs, Split(p, '/'), name);
  }

  lemma NotEmpty(p: string, name: string)
    ensures p + "/" + name != ""
  {
    assert |p + "/" + name| > 0;
  }

  /** Directories that hold, with each one below a user's own, the one above it. */
  ghost predicate HasParents(dirs: set<string>) {
    forall parts: seq<string> :: |parts| > 3 && Join(parts, '/') in dirs ==> Join(parts[..|parts| - 1], '/') in dirs
  }

  lemma {:induction false} WalkStaysInside(dirs: set<string>, parts: seq<string>, dest: seq<string>)
    requires HasParents(dirs) && Join(parts, '/') in dirs && Walk(dirs, parts, dest).Some?
    ensures Join(Walk(dirs, parts, dest).value, '/') in dirs
    decreases |dest|
  {
    hide Join;
    if dest != [] {
      if dest[0] == ".." {
        WalkStaysInside(dirs, if |parts| > 3 then parts[..|parts| - 1] else parts, dest[1..]);
      } else if dest[0] == "" || dest[0] == "." {
        WalkStaysInside(dirs, parts, dest[1..]);
      } else {
        WalkStaysInside(dirs, parts + [dest[0]], dest[1..]);
      }
    }
  }

  /** From a directory that is there cd leads only to directories that are there. */
  lemma CdLeadsToDirectory(dirs: set<string>, p: string, dest: string, id: string)
    requires Rooted(p, id) && GoodId(id) && HasParents(dirs) && p in dirs && Cd(dirs, p, dest) != ""
    ensures Cd(dirs, p, dest) in dirs
  {
    hide Split, Join, Walk;
    RootedNonEmpty(p, id);
    CdParts(dirs, p, dest);
    WalkStaysInside(dirs, Split(p, '/'), Split(dest, '/'));
  }

  // ---------- file names ----------

  predicate OccursAt(s: string, t: string, k: nat) {
    k + |t| <= |s| && s[k..k + |t|] == t
  }

  predicate Contains(s: string, t: string) {
    exists k :: 0 <= k <= |s| && OccursAt(s, t, k)
  }

  predicate IsValidFilename(name: string) {
    !Contains(name, "../") && '/' !in name && '\\' !in name
  }

  /** A file name the server accepts adds exactly one component to a directory path; the result is
      still inside the tree exactly when the name is not one of the two dot names, which the check lets pass. */
  lemma ValidNameAddsOneComponent(p: string, id: string, name: string)
    requires Rooted(p, id) && GoodId(id) && name != "" && IsValidFilename(name)
    ensures Split(p + "/" + name, '/') == Split(p, '/') + [name]
    ensures Rooted(p + "/" + name, id) <==> name != "." && name != ".."
  {
    RootedNonEmpty(p, id);
    var parts := Split(p, '/');
    assert p + "/" + name == p + ['/'] + name;
    SplitConcat(p, name, '/');
    SplitLast(name, '/');
    assert [] + [name] == [name];
    NewComponent(parts, name, id);
    var s := p + ['/'] + name;
    assert s[|s| - 1] == name[|name| - 1] && name[|name| - 1] != '/';
  }

  lemma NewComponent(parts: seq<string>, name: string, id: string)
    requires RootedParts(parts, id) && name != "" && '/' !in name
    ensures RootedParts(parts + [name], id) <==> name != "." && name != ".."
  {
    var q := parts + [name];
    assert q[|parts|] == name;
    if name != "." && name != ".." {
      forall k | 3 <= k < |q| ensures Component(q[k]) {
        assert k < |parts| ==> q[k] == parts[k];
      }
    }
  }

  /** The substring test is redundant: only the two delimiters decide. */
  lemma ValidFilenameIff(name: string)
    ensures IsValidFilename(name) <==> '/' !in name && '\\' !in name
  {
    if Contains(name, "../") {
      var k :| 0 <= k <= |name| && OccursAt(name, "../", k);
      assert name[k + 2] == name[k..k + 3][2] == '/';
    }
  }

  // ---------- the loops ----------

  /** ssplit. */
  method SplitLoop(s: string, d: char) returns (tokens: seq<string>)
    ensures tokens == Split(s, d)
  {
    tokens := [];
    var at := 0;
    assert s[0..] == s;
    while at < |s|
      invariant 0 <= at <= |s|
      invariant tokens + Split(s[at..], d) == Split(s, d)
    {
      var end := NextDelimiter(s, d, at);
      var next := if end < |s| then end + 1 else end;
      SplitTail(s, d, at, end);
      Regroup(tokens, [s[at..end]], Split(s[next..], d));
      tokens := tokens + [s[at..end]];
      at := next;
    }
  }

  /** The scan of one getline. */
  method NextDelimiter(s: string, d: char, at: nat) returns (end: nat)
    requires at <= |s|
    ensures at <= end <= |s| && (forall k :: at <= k < end ==> s[k] != d) && (end < |s| ==> s[end] == d)
  {
    end := at;
    while end < |s| && s[end] != d
      invariant at <= end <= |s|
      invariant forall k :: at <= k < end ==> s[k] != d
    {
      end := end + 1;
    }
  }

  lemma SplitTail(s: string, d: char, at: nat, end: nat)
    requires at < |s| && at <= end <= |s|
    requires (forall k :: at <= k < end ==> s[k] != d) && (end < |s| ==> s[end] == d)
    ensures Split(s[at..], d) == [s[at..end]] + Split(s[if end < |s| then end + 1 else end..], d)
  {
    var t := s[at..end];
    if end == |s| {
      assert s[at..] == t && s[end..] == "";
      SplitLast(t, d);
    } else {
      assert s[at..] == t + [d] + s[end + 1..];
      SplitCons(t, s[end + 1..], d);
    }
  }

  /** sjoin. */
  method JoinLoop(tokens: seq<string>, d: char) returns (s: string)
    ensures s == Join(tokens, d)
  {
    s := "";
    for i := 0 to |tokens|
      invariant s == Join(tokens[..i], d)
    {
      JoinSnoc(tokens[..i], tokens[i], d);
      assert tokens[..i + 1] == tokens[..i] + [tokens[i]];
      if i != 0 {
        s := s + [d];
      }
      s := s + tokens[i];
    }
    assert tokens[..|tokens|] == tokens;
  }

  /** cd_command. */
  method CdCommand(dirs: set<string>, current: string, dest: string) returns (path: string)
    ensures path == Cd(dirs, current, dest)
  {
    var parts := SplitLoop(current, '/');
    var steps := SplitLoop(dest, '/');
    var i := 0;
    while i < |steps|
      invariant 0 <= i <= |steps|
      invariant Walk(dirs, parts, steps[i..]) == Walk(dirs, Split(current, '/'), steps)
    {
      var part := steps[i];
      assert steps[i..][1..] == steps[i + 1..];
      if part == ".." {
        if |parts| > 3 {
          parts := parts[..|parts| - 1];
        }
      } else if part != "" && part != "." {
        parts := parts + [part];
        var newPath := JoinLoop(parts, '/');
        if newPath !in dirs {
          return "";
        }
      }
      i := i + 1;
    }
    path := JoinLoop(parts, '/');
  }
}
