/**
 * Turning a tool's relative path into a real path inside its workspace, over a file system with
 * symbolic links, hard links and entries that do not exist yet.
 */
module WorkspacePath {
  import opened Protocol

  // The names from the root down.
  type Path = seq<string>

  datatype Component = Normal(name: string) | CurDir | ParentDir | RootDir

  datatype Node = Dir | File(nlink: nat) | Link(target: seq<Component>)

  // `maxLinks` is how many links one resolution follows before the system gives up.
  datatype FileSystem = FileSystem(nodes: map<Path, Node>, maxLinks: nat) {
    /** A tree: a root directory, and every entry inside a directory. */
    predicate Valid()
    {
      && [] in nodes && nodes[[]].Dir?
      && forall p :: p in nodes && p != [] ==> p[..|p| - 1] in nodes && nodes[p[..|p| - 1]].Dir?
    }

    predicate IsDir(p: Path)
    {
      p in nodes && nodes[p].Dir?
    }
  }

  datatype ExecError = PathEscape | SensitivePath(path: string) | Io

  const SENSITIVE_PREFIXES: seq<string> := [".ssh", ".aws", ".gnupg", ".config/gcloud", "Library/Keychains"]

  // ---------------------------------------------------------------- path text

  function SplitSlash(s: string): (parts: seq<string>)
    ensures parts != []
    ensures forall i :: 0 <= i < |parts| ==> '/' !in parts[i]
  {
    if s == "" then [""]
    else if s[0] == '/' then [""] + SplitSlash(s[1..])
    else
      var rest := SplitSlash(s[1..]);
      [[s[0]] + rest[0]] + rest[1..]
  }

  function PartComponents(parts: seq<string>): (comps: seq<Component>)
    ensures forall i :: 0 <= i < |comps| ==> comps[i] != RootDir
    ensures (forall i :: 0 <= i < |parts| ==> '/' !in parts[i]) ==>
              forall i :: 0 <= i < |comps| && comps[i].Normal? ==> comps[i].name != "" && '/' !in comps[i].name
  {
    if parts == [] then []
    else if parts[0] == "" then PartComponents(parts[1..])
    else if parts[0] == "." then [CurDir] + PartComponents(parts[1..])
    else if parts[0] == ".." then [ParentDir] + PartComponents(parts[1..])
    else [Normal(parts[0])] + PartComponents(parts[1..])
  }

  predicate IsAbsolute(rel: string)
  {
    rel != "" && rel[0] == '/'
  }

  function Components(rel: string): (comps: seq<Component>)
    ensures forall i :: 0 <= i < |comps| && comps[i].Normal? ==> comps[i].name != "" && '/' !in comps[i].name
    ensures RootDir in comps <==> IsAbsolute(rel)
  {
    (if IsAbsolute(rel) then [RootDir] else []) + PartComponents(SplitSlash(rel))
  }

  function JoinSlash(names: seq<string>): string
  {
    if names == [] then "" else if |names| == 1 then names[0] else names[0] + "/" + JoinSlash(names[1..])
  }

  predicate IsSensitive(joined: string)
  {
    exists i :: 0 <= i < |SENSITIVE_PREFIXES|
      && (joined == SENSITIVE_PREFIXES[i] || SENSITIVE_PREFIXES[i] + "/" <= joined)
  }

  /** Text without a slash is one name; behind a slash the next one starts. */
  lemma SplitName(name: string, rest: string)
    requires '/' !in name
    ensures SplitSlash(name) == [name]
    ensures SplitSlash(name + "/" + rest) == [name] + SplitSlash(rest)
  {
    WithoutSlash(name);
    AtSlash(name, rest);
  }

  lemma {:induction false} WithoutSlash(name: string)
    requires '/' !in name
    ensures SplitSlash(name) == [name]
  {
    if name != "" {
      WithoutSlash(name[1..]);
      assert name[0] in name && name == [name[0]] + name[1..];
    }
  }

  lemma {:induction false} AtSlash(name: string, rest: string)
    requires '/' !in name
    ensures SplitSlash(name + "/" + rest) == [name] + SplitSlash(rest)
  {
    var whole := name + "/" + rest;
    if name == "" {
      assert whole == "/" + rest && whole[1..] == rest;
    } else {
      hide SplitSlash;
      AtSlash(name[1..], rest);
      assert name[0] in name && whole[0] == name[0] && whole[1..] == name[1..] + "/" + rest;
      NameGoesOn(whole);
      assert [whole[0]] + name[1..] == name;
    }
  }

  lemma NameGoesOn(text: string)
    requires text != "" && text[0] != '/'
    ensures SplitSlash(text) == [[text[0]] + SplitSlash(text[1..])[0]] + SplitSlash(text[1..])[1..]
  {
  }

  /** Splitting undoes joining. */
  lemma {:induction false} SplitJoin(parts: seq<string>)
    requires parts != [] && forall i :: 0 <= i < |parts| ==> '/' !in parts[i]
    ensures SplitSlash(JoinSlash(parts)) == parts
  {
    hide SplitSlash;
    if |parts| == 1 {
      SplitName(parts[0], "");
    } else {
      SplitName(parts[0], JoinSlash(parts[1..]));
      SplitJoin(parts[1..]);
    }
  }

  /** The components of a text are those of its parts, one after the other. */
  lemma {:induction false} PartsInOrder(a: seq<string>, b: seq<string>)
    ensures PartComponents(a + b) == PartComponents(a) + PartComponents(b)
  {
    hide PartComponents;
    if a == [] {
      assert a + b == b;
      NoParts();
    } else {
      PartsInOrder(a[1..], b);
      assert (a + b)[1..] == a[1..] + b;
      FirstPart(a);
      FirstPart(a + b);
    }
  }

  lemma NoParts()
    ensures PartComponents([]) == []
  {
  }

  lemma FirstPart(parts: seq<string>)
    requires parts != []
    ensures PartComponents(parts) == PartComponents([parts[0]]) + PartComponents(parts[1..])
  {
    OnePart(parts[0]);
  }

  /** A part is the directory itself, its parent, a name, or, if empty, nothing. */
  lemma OnePart(part: string)
    ensures PartComponents([part])
         == if part == "" then [] else if part == "." then [CurDir] else if part == ".." then [ParentDir]
            else [Normal(part)]
  {
    assert [part][1..] == [];
  }

  predicate IsName(part: string)
  {
    part != "" && part != "." && part != ".." && '/' !in part
  }

  lemma NamePart(part: string)
    requires IsName(part)
    ensures PartComponents([part]) == [Normal(part)]
  {
    OnePart(part);
  }

  /** The text of a list of names has those names as its components. */
  lemma {:induction false} NamesKeepTheirText(names: seq<string>)
    requires names != [] && forall n :: n in names ==> IsName(n)
    ensures Components(JoinSlash(names)) == Names(names) && RootDir !in Components(JoinSlash(names))
  {
    hide SplitSlash, PartComponents;
    assert forall i :: 0 <= i < |names| ==> names[i] in names;
    SplitJoin(names);
    NamesAreParts(names);
    assert names[0] in names;
    JoinStarts(names);
  }

  lemma JoinStarts(names: seq<string>)
    requires names != [] && names[0] != ""
    ensures JoinSlash(names) != "" && JoinSlash(names)[0] == names[0][0]
  {
  }

  lemma {:induction false} NamesAreParts(names: seq<string>)
    requires forall n :: n in names ==> IsName(n)
    ensures PartComponents(names) == Names(names)
  {
    hide PartComponents, IsName;
    if names == [] {
      NoParts();
    } else {
      assert names[0] in names;
      assert forall n :: n in names[1..] ==> n in names;
      NamesAreParts(names[1..]);
      FirstPart(names);
      NamePart(names[0]);
    }
  }

  // ---------------------------------------------------------------- the lexical stage

  function NameCount(comps: seq<Component>): nat
  {
    if comps == [] then 0
    else NameCount(comps[..|comps| - 1]) + if comps[|comps| - 1].Normal? then 1 else 0
  }

  function UpCount(comps: seq<Component>): nat
  {
    if comps == [] then 0
    else UpCount(comps[..|comps| - 1]) + if comps[|comps| - 1].ParentDir? then 1 else 0
  }

  /** At some point the path has gone up more often than down. */
  ghost predicate ClimbsOut(comps: seq<Component>)
  {
    exists k :: 0 <= k <= |comps| && NameCount(comps[..k]) < UpCount(comps[..k])
  }

  /** Where the components lead from `base` if nothing on the way is a link. */
  function Follow(base: Path, comps: seq<Component>): Path
  {
    if comps == [] then base
    else
      var p := Follow(base, comps[..|comps| - 1]);
      match comps[|comps| - 1]
      case Normal(n) => p + [n]
      case CurDir => p
      case ParentDir => if p == [] then [] else p[..|p| - 1]
      case RootDir => []
  }

  /** A path that never climbs out leads, from any directory, to a place below it. */
  lemma {:induction false} FollowStaysBelow(base: Path, comps: seq<Component>)
    requires !ClimbsOut(comps) && RootDir !in comps
    ensures Follow(base, comps) == base + Follow([], comps)
    ensures |Follow([], comps)| == NameCount(comps) - UpCount(comps)
  {
    if comps != [] {
      var n := |comps| - 1;
      assert comps[..|comps|] == comps;
      assert forall k :: 0 <= k <= n ==> comps[..n][..k] == comps[..k];
      FollowStaysBelow(base, comps[..n]);
      assert comps[n] in comps;
    }
  }

  /** Cancel each `..` against the name before it. */
  method EliminateParents(comps: seq<Component>) returns (r: Result<Path, ExecError>)
    ensures r.Err? <==> RootDir in comps || ClimbsOut(comps)
    ensures r == if r.Ok? then Ok(Follow([], comps)) else Err(PathEscape)
  {
    var stack: Path := [];
    for i := 0 to |comps|
      invariant stack == Follow([], comps[..i]) && |stack| == NameCount(comps[..i]) - UpCount(comps[..i])
      invariant forall k :: 0 <= k <= i ==> UpCount(comps[..k]) <= NameCount(comps[..k])
      invariant RootDir !in comps[..i]
    {
      assert comps[..i + 1][..i] == comps[..i];
      match comps[i] {
        case Normal(c) => stack := stack + [c];
        case CurDir =>
        case ParentDir =>
          if stack == [] {
            assert NameCount(comps[..i + 1]) < UpCount(comps[..i + 1]);
            return Err(PathEscape);
          }
          stack := stack[..|stack| - 1];
        case RootDir =>
          return Err(PathEscape);
      }
    }
    assert comps[..|comps|] == comps;
    return Ok(stack);
  }

  /** Syntax only: what a path means if no component is a link, and which are refused. */
  ghost function Lexically(rel: string): Result<Path, ExecError>
  {
    var comps := Components(rel);
    if IsAbsolute(rel) || ClimbsOut(comps) then Err(PathEscape)
    else if IsSensitive(JoinSlash(Follow([], comps))) then Err(SensitivePath(JoinSlash(Follow([], comps))))
    else Ok(Follow([], comps))
  }

  method ResolveLexically(rel: string) returns (r: Result<Path, ExecError>)
    ensures r == Lexically(rel)
  {
    hide ClimbsOut, Follow, JoinSlash, Components;
    if IsAbsolute(rel) {
      return Err(PathEscape);
    }
    var stack :- EliminateParents(Components(rel));
    var joined := JoinSlash(stack);
    for i := 0 to |SENSITIVE_PREFIXES|
      invariant forall j :: 0 <= j < i ==>
                  !(joined == SENSITIVE_PREFIXES[j] || SENSITIVE_PREFIXES[j] + "/" <= joined)
    {
      if joined == SENSITIVE_PREFIXES[i] || SENSITIVE_PREFIXES[i] + "/" <= joined {
        return Err(SensitivePath(joined));
      }
    }
    return Ok(stack);
  }

  // ---------------------------------------------------------------- the file system

  // Where a resolution arrives, and how many more links it could have followed.
  datatype Arrival = Arrival(place: Path, linksLeft: nat)

  function Parent(p: Path): Path
  {
    if p == [] then [] else p[..|p| - 1]
  }

  /** The system's own resolution: every link on the way is followed, up to a limit. */
  function Trail(fs: FileSystem, base: Path, todo: seq<Component>, links: nat): (r: Option<Arrival>)
    ensures r.Some? ==> r.value.linksLeft <= links
    decreases links, |todo|
  {
    if todo == [] then Some(Arrival(base, links))
    else if !fs.IsDir(base) then None
    else
      match todo[0]
      case CurDir => Trail(fs, base, todo[1..], links)
      case RootDir => Trail(fs, [], todo[1..], links)
      case ParentDir => Trail(fs, Parent(base), todo[1..], links)
      case Normal(n) =>
        var p := base + [n];
        if p !in fs.nodes then None
        else if !fs.nodes[p].Link? then Trail(fs, p, todo[1..], links)
        else if links == 0 then None
        else Trail(fs, base, fs.nodes[p].target + todo[1..], links - 1)
  }

  function Walk(fs: FileSystem, base: Path, todo: seq<Component>, links: nat): Option<Path>
  {
    var arrival := Trail(fs, base, todo, links);
    if arrival.Some? then Some(arrival.value.place) else None
  }

  function Names(p: Path): (comps: seq<Component>)
    ensures |comps| == |p| && forall i :: 0 <= i < |p| ==> comps[i] == Normal(p[i])
  {
    seq(|p|, i requires 0 <= i < |p| => Normal(p[i]))
  }

  function Canonicalize(fs: FileSystem, p: Path): Option<Path>
  {
    Walk(fs, [], Names(p), fs.maxLinks)
  }

  /** Whether the last component itself is there, link or not. */
  predicate LstatSucceeds(fs: FileSystem, p: Path)
  {
    p == [] ||
    var parent := Canonicalize(fs, p[..|p| - 1]);
    parent.Some? && fs.IsDir(parent.value) && parent.value + [p[|p| - 1]] in fs.nodes
  }

  /** Resolution ends at an entry that exists and is not a link. */
  lemma {:induction false} TrailEndsAtRealEntry(fs: FileSystem, base: Path, todo: seq<Component>, links: nat)
    requires fs.Valid() && base in fs.nodes && !fs.nodes[base].Link?
    ensures var r := Trail(fs, base, todo, links);
      r.Some? ==> r.value.place in fs.nodes && !fs.nodes[r.value.place].Link?
    decreases links, |todo|
  {
    if todo != [] && fs.IsDir(base) {
      match todo[0]
      case CurDir => TrailEndsAtRealEntry(fs, base, todo[1..], links);
      case RootDir => TrailEndsAtRealEntry(fs, [], todo[1..], links);
      case ParentDir => TrailEndsAtRealEntry(fs, Parent(base), todo[1..], links);
      case Normal(n) =>
        var p := base + [n];
        if p in fs.nodes && !fs.nodes[p].Link? {
          TrailEndsAtRealEntry(fs, p, todo[1..], links);
        } else if p in fs.nodes && links > 0 {
          TrailEndsAtRealEntry(fs, base, fs.nodes[p].target + todo[1..], links - 1);
        }
    }
  }

  /** Every proper ancestor of an entry is a directory. */
  lemma {:induction false} AncestorsAreDirs(fs: FileSystem, p: Path, k: nat)
    requires fs.Valid() && p in fs.nodes && k < |p|
    ensures fs.IsDir(p[..k])
  {
    var up := p[..|p| - 1];
    if k < |up| {
      AncestorsAreDirs(fs, up, k);
      assert up[..k] == p[..k];
    }
  }

  /** No component of `p` is a symbolic link. */
  predicate LinkFree(fs: FileSystem, p: Path)
  {
    forall k :: 0 <= k <= |p| && p[..k] in fs.nodes ==> !fs.nodes[p[..k]].Link?
  }

  lemma TrailName(fs: FileSystem, base: Path, name: string, rest: seq<Component>, links: nat)
    requires fs.IsDir(base) && base + [name] in fs.nodes && !fs.nodes[base + [name]].Link?
    ensures Trail(fs, base, [Normal(name)] + rest, links) == Trail(fs, base + [name], rest, links)
  {
    assert ([Normal(name)] + rest)[1..] == rest;
  }

  /** The system resolves the path of a real entry to itself, following no link. */
  lemma {:induction false} RealPathIsFixed(fs: FileSystem, p: Path, k: nat, links: nat)
    requires fs.Valid() && p in fs.nodes && !fs.nodes[p].Link? && k <= |p|
    ensures Trail(fs, p[..k], Names(p[k..]), links) == Some(Arrival(p, links))
    decreases |p| - k
  {
    if k == |p| {
      assert p[..k] == p && p[k..] == [];
    } else {
      hide Trail;
      var base, rest := p[..k], p[k + 1..];
      assert base + [p[k]] == p[..k + 1];
      EntryOnTheWay(fs, p, k);
      EntryOnTheWay(fs, p, k + 1);
      RealPathIsFixed(fs, p, k + 1, links);
      TrailName(fs, base, p[k], Names(rest), links);
      assert Names(p[k..]) == [Normal(p[k])] + Names(rest);
    }
  }

  /** The way to a real entry leads through directories. */
  lemma EntryOnTheWay(fs: FileSystem, p: Path, k: nat)
    requires fs.Valid() && p in fs.nodes && !fs.nodes[p].Link? && k <= |p|
    ensures p[..k] in fs.nodes && !fs.nodes[p[..k]].Link? && (k < |p| ==> fs.IsDir(p[..k]))
  {
    if k < |p| {
      AncestorsAreDirs(fs, p, k);
    } else {
      assert p[..k] == p;
    }
  }

  // ---------------------------------------------------------------- the real-path stage

  /** The workspace root is a real directory, as its creation leaves it. */
  predicate IsWorkspace(fs: FileSystem, ws: Path)
  {
    fs.Valid() && fs.IsDir(ws)
  }

  /** How much of `path` has to be kept so that what is kept exists, at least `ws`. */
  function DeepestExisting(fs: FileSystem, ws: Path, names: Path): (k: nat)
    ensures k <= |names|
  {
    if names == [] || LstatSucceeds(fs, ws + names) then |names|
    else DeepestExisting(fs, ws, names[..|names| - 1])
  }

  /** A file another name may reach. */
  predicate IsHardLinked(fs: FileSystem, p: Path)
  {
    p in fs.nodes && fs.nodes[p].File? && fs.nodes[p].nlink > 1
  }

  lemma WorkspaceExists(fs: FileSystem, ws: Path)
    requires IsWorkspace(fs, ws)
    ensures LstatSucceeds(fs, ws)
    ensures Canonicalize(fs, ws) == Some(ws)
  {
    RealIsCanonical(fs, ws);
    RealEntryIsThere(fs, ws);
  }

  lemma RealEntryIsThere(fs: FileSystem, p: Path)
    requires fs.Valid() && p in fs.nodes
    ensures LstatSucceeds(fs, p)
  {
    hide Walk;
    if p != [] {
      var up := p[..|p| - 1];
      RealIsCanonical(fs, up);
      assert up + [p[|p| - 1]] == p;
    }
  }

  lemma RealIsCanonical(fs: FileSystem, p: Path)
    requires fs.Valid() && p in fs.nodes && !fs.nodes[p].Link?
    ensures Canonicalize(fs, p) == Some(p)
  {
    RealPathIsFixed(fs, p, 0, fs.maxLinks);
    assert p[..0] == [] && p[0..] == p;
  }

  lemma CanonicalIsReal(fs: FileSystem, p: Path)
    requires fs.Valid() && Canonicalize(fs, p).Some?
    ensures Canonicalize(fs, p).value in fs.nodes && !fs.nodes[Canonicalize(fs, p).value].Link?
  {
    TrailEndsAtRealEntry(fs, [], Names(p), fs.maxLinks);
  }

  /** Strip trailing names until what is left exists; the workspace root always does. */
  method StripMissing(fs: FileSystem, ws: Path, names: Path) returns (existing: Path, trailing: seq<string>)
    requires IsWorkspace(fs, ws)
    ensures existing == ws + names[..DeepestExisting(fs, ws, names)]
    ensures trailing == names[DeepestExisting(fs, ws, names)..]
  {
    hide LstatSucceeds, DeepestExisting, Canonicalize;
    WorkspaceExists(fs, ws);
    existing, trailing := ws + names, [];
    ghost var k: nat := |names|;
    assert names[..k] == names && names[k..] == [];
    while !LstatSucceeds(fs, existing)
      invariant k <= |names| && existing == ws + names[..k] && Reverse(trailing) == names[k..]
      invariant DeepestExisting(fs, ws, names) == DeepestExisting(fs, ws, names[..k])
      decreases |existing|
    {
      assert k > 0 by { assert ws + names[..0] == ws; }
      PopName(ws, names, k);
      NotDeepest(fs, ws, names[..k]);
      ReverseSnoc(trailing, existing[|existing| - 1]);
      trailing := trailing + [existing[|existing| - 1]];
      existing := existing[..|existing| - 1];
      k := k - 1;
    }
    Deepest(fs, ws, names[..k]);
    trailing := Reverse(trailing);
  }

  lemma NotDeepest(fs: FileSystem, ws: Path, names: Path)
    requires names != [] && !LstatSucceeds(fs, ws + names)
    ensures DeepestExisting(fs, ws, names) == DeepestExisting(fs, ws, names[..|names| - 1])
  {
  }

  lemma Deepest(fs: FileSystem, ws: Path, names: Path)
    requires LstatSucceeds(fs, ws + names)
    ensures DeepestExisting(fs, ws, names) == |names|
  {
  }

  lemma PopName(ws: Path, names: Path, k: nat)
    requires 0 < k <= |names|
    ensures var path := ws + names[..k];
      && path != [] && path[..|path| - 1] == ws + names[..k - 1] && path[|path| - 1] == names[k - 1]
      && names[..k][..k - 1] == names[..k - 1] && names[k - 1..] == [names[k - 1]] + names[k..]
  {
  }

  function Reverse(xs: seq<string>): seq<string>
  {
    if xs == [] then [] else Reverse(xs[1..]) + [xs[0]]
  }

  lemma {:induction false} ReverseSnoc(xs: seq<string>, x: string)
    ensures Reverse(xs + [x]) == [x] + Reverse(xs)
  {
    if xs == [] {
      assert [x][1..] == [];
    } else {
      ReverseSnoc(xs[1..], x);
      assert (xs + [x])[1..] == xs[1..] + [x];
    }
  }

  /** Strip what does not exist, resolve what does, and put the stripped tail back. */
  function ThroughSymlinks(fs: FileSystem, ws: Path, names: Path): Result<Path, ExecError>
  {
    var k := DeepestExisting(fs, ws, names);
    var found := Canonicalize(fs, ws + names[..k]);
    if found.None? then Err(Io)
    else if !(ws <= found.value) || IsHardLinked(fs, found.value) then Err(PathEscape)
    else Ok(found.value + names[k..])
  }

  method ResolveThroughSymlinks(fs: FileSystem, ws: Path, names: Path) returns (r: Result<Path, ExecError>)
    requires IsWorkspace(fs, ws)
    ensures r == ThroughSymlinks(fs, ws, names)
  {
    hide Walk, DeepestExisting;
    var existing, trailing := StripMissing(fs, ws, names);
    var realAncestor := Canonicalize(fs, existing);
    if realAncestor.None? {
      return Err(Io);
    }
    if !(ws <= realAncestor.value) {
      return Err(PathEscape);
    }
    if IsHardLinked(fs, realAncestor.value) {
      return Err(PathEscape);
    }
    var resolved := realAncestor.value;
    for i := 0 to |trailing|
      invariant resolved == realAncestor.value + trailing[..i]
    {
      resolved := resolved + [trailing[i]];
    }
    assert trailing[..|trailing|] == trailing;
    return Ok(resolved);
  }

  // ---------------------------------------------------------------- what a resolved path promises

  /** What is kept exists, and nothing longer does. */
  lemma {:induction false} DeepestIsDeepest(fs: FileSystem, ws: Path, names: Path, k: nat)
    requires IsWorkspace(fs, ws)
    requires DeepestExisting(fs, ws, names) <= k <= |names|
    ensures LstatSucceeds(fs, ws + names[..k]) <==> k == DeepestExisting(fs, ws, names)
  {
    hide LstatSucceeds;
    WorkspaceExists(fs, ws);
    assert ws + [] == ws && names[..|names|] == names;
    if names != [] && !LstatSucceeds(fs, ws + names) && k < |names| {
      var init := names[..|names| - 1];
      DeepestIsDeepest(fs, ws, init, k);
      assert init[..k] == names[..k];
    }
  }

  /** Below the deepest existing ancestor there is nothing at all. */
  lemma NothingBelow(fs: FileSystem, p: Path, name: string)
    requires fs.Valid() && Canonicalize(fs, p).Some? && !LstatSucceeds(fs, p + [name])
    ensures Canonicalize(fs, p).value + [name] !in fs.nodes
  {
    hide Walk;
    assert (p + [name])[..|p|] == p;
    var found := Canonicalize(fs, p).value;
    if found + [name] in fs.nodes {
      assert (found + [name])[..|found|] == found;
    }
  }

  /** Where an entry is missing, everything below it is. */
  lemma MissingBelow(fs: FileSystem, p: Path, q: Path)
    requires fs.Valid() && p !in fs.nodes && p <= q
    ensures q !in fs.nodes
  {
    assert q[..|p|] == p && q[..|q|] == q;
    if |p| < |q| && q in fs.nodes {
      AncestorsAreDirs(fs, q, |p|);
    }
  }

  /** The paths the resolver may hand out: inside the workspace, no link on the way, and if the
      entry exists the system itself resolves the path to itself and no other name reaches it. */
  predicate IsSafe(fs: FileSystem, ws: Path, p: Path)
  {
    && ws <= p && LinkFree(fs, p)
    && (p in fs.nodes ==> Canonicalize(fs, p) == Some(p) && (fs.nodes[p].File? ==> fs.nodes[p].nlink <= 1))
  }

  lemma RealWithTailIsSafe(fs: FileSystem, ws: Path, found: Path, tail: Path)
    requires fs.Valid() && ws <= found && found in fs.nodes && !fs.nodes[found].Link? && !IsHardLinked(fs, found)
    requires tail != [] ==> found + [tail[0]] !in fs.nodes
    ensures IsSafe(fs, ws, found + tail)
  {
    var p := found + tail;
    forall k | 0 <= k <= |p| && p[..k] in fs.nodes ensures !fs.nodes[p[..k]].Link? {
      if k < |found| {
        AncestorsAreDirs(fs, found, k);
        assert p[..k] == found[..k];
      } else if k == |found| {
        assert p[..k] == found;
      } else {
        assert found + [tail[0]] <= p[..k];
        MissingBelow(fs, found + [tail[0]], p[..k]);
        assert false;
      }
    }
    if tail == [] {
      assert p == found;
      RealIsCanonical(fs, found);
    } else {
      assert found + [tail[0]] <= p;
      MissingBelow(fs, found + [tail[0]], p);
    }
  }

  lemma ResolvedIsSafe(fs: FileSystem, ws: Path, names: Path)
    requires IsWorkspace(fs, ws)
    ensures ThroughSymlinks(fs, ws, names).Ok? ==> IsSafe(fs, ws, ThroughSymlinks(fs, ws, names).value)
    ensures ThroughSymlinks(fs, ws, names).Ok? ==>
      var p := ThroughSymlinks(fs, ws, names).value;
      && ws <= p
      && (forall k :: 0 <= k <= |p| && p[..k] in fs.nodes ==> !fs.nodes[p[..k]].Link?)
      && (p in fs.nodes && fs.nodes[p].File? ==> fs.nodes[p].nlink <= 1)
  {
    hide Walk, DeepestExisting, LstatSucceeds, IsSafe, IsHardLinked;
    var k := DeepestExisting(fs, ws, names);
    var found := Canonicalize(fs, ws + names[..k]);
    if found.Some? && ws <= found.value && !IsHardLinked(fs, found.value) {
      CanonicalIsReal(fs, ws + names[..k]);
      if k < |names| {
        DeepestIsDeepest(fs, ws, names, k + 1);
        assert ws + names[..k + 1] == ws + names[..k] + [names[k]];
        NothingBelow(fs, ws + names[..k], names[k]);
      }
      RealWithTailIsSafe(fs, ws, found.value, names[k..]);
      SafeMeans(fs, ws, found.value + names[k..]);
    }
  }

  lemma SafeMeans(fs: FileSystem, ws: Path, p: Path)
    requires IsSafe(fs, ws, p)
    ensures ws <= p
    ensures forall k :: 0 <= k <= |p| && p[..k] in fs.nodes ==> !fs.nodes[p[..k]].Link?
    ensures p in fs.nodes && fs.nodes[p].File? ==> fs.nodes[p].nlink <= 1
  {
  }

  /** Both stages: the exact outcome for every path. */
  ghost function Resolved(fs: FileSystem, ws: Path, rel: string): Result<Path, ExecError>
  {
    match Lexically(rel)
    case Err(e) => Err(e)
    case Ok(names) => ThroughSymlinks(fs, ws, names)
  }

  /** A path that is handed out lies inside the workspace and goes through no link. */
  method ResolveInWorkspace(fs: FileSystem, ws: Path, rel: string) returns (r: Result<Path, ExecError>)
    requires IsWorkspace(fs, ws)
    ensures r == Resolved(fs, ws, rel)
    ensures r.Ok? ==> IsSafe(fs, ws, r.value)
    ensures IsAbsolute(rel) || ClimbsOut(Components(rel)) ==> r == Err(PathEscape)
    ensures r.Err? && r.error.SensitivePath? <==>
      !IsAbsolute(rel) && !ClimbsOut(Components(rel)) && IsSensitive(JoinSlash(Follow([], Components(rel))))
  {
    hide ClimbsOut, Follow, JoinSlash, Components, Walk, DeepestExisting, IsSafe, IsSensitive;
    var names :- ResolveLexically(rel);
    ResolvedIsSafe(fs, ws, names);
    r := ResolveThroughSymlinks(fs, ws, names);
  }

  // ---------------------------------------------------------------- sensitive prefixes

  predicate SlashFree(names: seq<string>)
  {
    forall i :: 0 <= i < |names| ==> '/' !in names[i]
  }

  /** The first slash of a text is where its first name ends. */
  lemma FirstSlash(a: string, x: string, n: string, y: string)
    requires '/' !in a && '/' !in n && a + "/" + x <= n + "/" + y
    ensures a == n && x <= y
  {
    var s, t := a + "/" + x, n + "/" + y;
    assert s[|a|] == '/' == t[|a|] && t[|n|] == '/';
    assert s[..|a|] == a && t[..|n|] == n;
    assert s[|a| + 1..] == x && t[|n| + 1..] == y;
  }

  lemma JoinCons(names: seq<string>)
    requires |names| > 1
    ensures JoinSlash(names) == names[0] + "/" + JoinSlash(names[1..])
  {
  }

  /** On joined text, "equal or followed by a slash" is "the same leading names". */
  lemma {:induction false} JoinedPrefix(p: seq<string>, names: seq<string>)
    requires SlashFree(p) && SlashFree(names) && p != [] && names != []
    ensures (JoinSlash(names) == JoinSlash(p) || JoinSlash(p) + "/" <= JoinSlash(names)) <==> p <= names
    decreases |p|
  {
    var a, n := p[0], names[0];
    var text, whole := JoinSlash(p), JoinSlash(names);
    assert p == [a] + p[1..] && names == [n] + names[1..];
    if |names| == 1 {
      assert '/' !in whole;
      assert (text + "/")[|text|] == '/';
      if |p| > 1 {
        JoinCons(p);
        assert text[|a|] == '/';
      }
    } else {
      var more := JoinSlash(names[1..]);
      assert whole[|n|] == '/';
      if |p| == 1 {
        assert '/' !in text;
        assert text + "/" + "" == text + "/";
        if text + "/" <= whole {
          FirstSlash(a, "", n, more);
        }
        if p <= names {
          assert a == n && text + "/" <= whole;
        }
      } else {
        JoinedPrefix(p[1..], names[1..]);
        JoinedTails(p, names);
        assert p <= names <==> a == n && p[1..] <= names[1..];
      }
    }
  }

  lemma JoinedTails(p: seq<string>, names: seq<string>)
    requires SlashFree(p) && SlashFree(names) && |p| > 1 && |names| > 1
    ensures
      var text, whole := JoinSlash(p), JoinSlash(names);
      var textTail, wholeTail := JoinSlash(p[1..]), JoinSlash(names[1..]);
      (whole == text || text + "/" <= whole) <==>
        p[0] == names[0] && (wholeTail == textTail || textTail + "/" <= wholeTail)
  {
    hide JoinSlash;
    JoinCons(p);
    JoinCons(names);
    var a, n := p[0], names[0];
    var textTail, wholeTail := JoinSlash(p[1..]), JoinSlash(names[1..]);
    var text, whole := JoinSlash(p), JoinSlash(names);
    assert text + "/" == a + "/" + (textTail + "/");
    if text + "/" <= whole {
      FirstSlash(a, textTail + "/", n, wholeTail);
    }
    if whole == text {
      FirstSlash(a, textTail, n, wholeTail);
      FirstSlash(n, wholeTail, a, textTail);
    }
    if a == n && textTail + "/" <= wholeTail {
      assert wholeTail == textTail + "/" + wholeTail[|textTail| + 1..];
      assert whole == text + "/" + wholeTail[|textTail| + 1..];
    }
  }

  lemma {:induction false} JoinOfSplit(s: string)
    ensures JoinSlash(SplitSlash(s)) == s
  {
    if s != "" {
      var rest := SplitSlash(s[1..]);
      JoinOfSplit(s[1..]);
      if s[0] == '/' {
        JoinCons(SplitSlash(s));
        assert SplitSlash(s)[1..] == rest;
        assert s == "" + "/" + s[1..];
      } else if |rest| > 1 {
        JoinCons(SplitSlash(s));
        JoinCons(rest);
        assert SplitSlash(s)[1..] == rest[1..];
        assert s == [s[0]] + s[1..];
      }
    }
  }

  lemma {:induction false} FollowIsSlashFree(comps: seq<Component>)
    requires forall i :: 0 <= i < |comps| && comps[i].Normal? ==> '/' !in comps[i].name
    ensures SlashFree(Follow([], comps))
  {
    if comps != [] {
      FollowIsSlashFree(comps[..|comps| - 1]);
    }
  }

  /** A path is refused as sensitive when its leading names are those of a protected place, whole
      names only: `.sshx` is not `.ssh`. */
  lemma SensitiveByNames(rel: string)
    ensures
      var names := Follow([], Components(rel));
      IsSensitive(JoinSlash(names)) <==>
        exists i :: 0 <= i < |SENSITIVE_PREFIXES| && SplitSlash(SENSITIVE_PREFIXES[i]) <= names
  {
    hide Components, Follow;
    var names := Follow([], Components(rel));
    FollowIsSlashFree(Components(rel));
    forall i | 0 <= i < |SENSITIVE_PREFIXES|
      ensures
        (JoinSlash(names) == SENSITIVE_PREFIXES[i] || SENSITIVE_PREFIXES[i] + "/" <= JoinSlash(names))
        <==> SplitSlash(SENSITIVE_PREFIXES[i]) <= names
    {
      JoinOfSplit(SENSITIVE_PREFIXES[i]);
      if names != [] {
        JoinedPrefix(SplitSlash(SENSITIVE_PREFIXES[i]), names);
      }
    }
  }

  /** The protected places by name. */
  lemma SensitivePlaces(rel: string)
    ensures
      var names := Follow([], Components(rel));
      IsSensitive(JoinSlash(names)) <==>
        && names != []
        && (|| names[0] in [".ssh", ".aws", ".gnupg"]
            || (|names| >= 2 && names[..2] in [[".config", "gcloud"], ["Library", "Keychains"]]))
  {
    hide Components, Follow, SplitSlash, IsSensitive, JoinSlash;
    var names := Follow([], Components(rel));
    SensitiveByNames(rel);
    SplitPlaces();
    forall i | 0 <= i < |SENSITIVE_PREFIXES|
      ensures SplitSlash(SENSITIVE_PREFIXES[i]) <= names ==>
        || names[0] in [".ssh", ".aws", ".gnupg"]
        || (|names| >= 2 && names[..2] in [[".config", "gcloud"], ["Library", "Keychains"]])
    {
      assert i == 0 || i == 1 || i == 2 || i == 3 || i == 4;
      var parts := SplitSlash(SENSITIVE_PREFIXES[i]);
      if parts <= names {
        assert names[..|parts|] == parts && names[0] == parts[0];
      }
    }
    if names != [] && names[0] in [".ssh", ".aws", ".gnupg"] {
      var i := if names[0] == ".ssh" then 0 else if names[0] == ".aws" then 1 else 2;
      assert SplitSlash(SENSITIVE_PREFIXES[i]) <= names;
    }
    if |names| >= 2 && names[..2] in [[".config", "gcloud"], ["Library", "Keychains"]] {
      var i := if names[..2] == [".config", "gcloud"] then 3 else 4;
      assert SplitSlash(SENSITIVE_PREFIXES[i]) <= names;
    }
  }

  lemma SplitPlaces()
    ensures SplitSlash(".ssh") == [".ssh"] && SplitSlash(".aws") == [".aws"] && SplitSlash(".gnupg") == [".gnupg"]
    ensures SplitSlash(".config/gcloud") == [".config", "gcloud"]
    ensures SplitSlash("Library/Keychains") == ["Library", "Keychains"]
  {
    hide SplitSlash;
    SplitName(".ssh", "");
    SplitName(".aws", "");
    SplitName(".gnupg", "");
    SplitName("gcloud", "");
    SplitName("Keychains", "");
    SplitName(".config", "gcloud");
    SplitName("Library", "Keychains");
    assert ".config" + "/" + "gcloud" == ".config/gcloud" && "Library" + "/" + "Keychains" == "Library/Keychains";
  }
}
