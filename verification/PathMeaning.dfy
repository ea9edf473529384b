/**
 * When the resolver, which tidies `.` and `..` away on the text of a path, names what the system
 * itself would reach, and nothing where the system reaches nothing: exactly when every component
 * keeps the two in step.
 */
module PathMeaning {
  import opened Protocol
  import opened WorkspacePath

  // ---------------------------------------------------------------- resolution, step by step

  lemma {:induction false} TrailConcat(fs: FileSystem, base: Path, a: seq<Component>, b: seq<Component>, links: nat)
    ensures var first := Trail(fs, base, a, links);
      Trail(fs, base, a + b, links)
      == if first.Some? then Trail(fs, first.value.place, b, first.value.linksLeft) else None
    decreases links, |a|
  {
    if a == [] || b == [] {
      assert a == [] ==> a + b == b;
      assert b == [] ==> a + b == a;
    } else if fs.IsDir(base) {
      assert (a + b)[1..] == a[1..] + b;
      match a[0]
      case CurDir => TrailConcat(fs, base, a[1..], b, links);
      case RootDir => TrailConcat(fs, [], a[1..], b, links);
      case ParentDir => TrailConcat(fs, Parent(base), a[1..], b, links);
      case Normal(n) =>
        var p := base + [n];
        if p in fs.nodes && !fs.nodes[p].Link? {
          TrailConcat(fs, p, a[1..], b, links);
        } else if p in fs.nodes && links > 0 {
          TrailConcat(fs, base, fs.nodes[p].target + a[1..], b, links - 1);
          assert fs.nodes[p].target + (a[1..] + b) == fs.nodes[p].target + a[1..] + b;
        }
    }
  }

  /** More links to spare never change where a resolution arrives. */
  lemma {:induction false} TrailWithMoreLinks(fs: FileSystem, base: Path, todo: seq<Component>, links: nat, more: nat)
    requires Trail(fs, base, todo, links).Some?
    ensures var r := Trail(fs, base, todo, links).value;
      Trail(fs, base, todo, links + more) == Some(Arrival(r.place, r.linksLeft + more))
    decreases links, |todo|
  {
    if todo != [] {
      match todo[0]
      case CurDir => TrailWithMoreLinks(fs, base, todo[1..], links, more);
      case RootDir => TrailWithMoreLinks(fs, [], todo[1..], links, more);
      case ParentDir => TrailWithMoreLinks(fs, Parent(base), todo[1..], links, more);
      case Normal(n) =>
        var p := base + [n];
        if !fs.nodes[p].Link? {
          TrailWithMoreLinks(fs, p, todo[1..], links, more);
        } else {
          TrailWithMoreLinks(fs, base, fs.nodes[p].target + todo[1..], links - 1, more);
        }
    }
  }

  // ---------------------------------------------------------------- which name a `..` cancels

  /** The positions of the names no `..` has cancelled yet. */
  function Open(comps: seq<Component>): (open: seq<nat>)
    ensures forall i :: 0 <= i < |open| ==> open[i] < |comps|
  {
    if comps == [] then []
    else
      var n := |comps| - 1;
      var open := Open(comps[..n]);
      match comps[n]
      case Normal(_) => open + [n]
      case ParentDir => if open == [] then [] else open[..|open| - 1]
      case _ => open
  }

  /** A path the lexical stage accepts. */
  ghost predicate StaysIn(comps: seq<Component>)
  {
    RootDir !in comps && !ClimbsOut(comps)
  }

  lemma StaysInPrefix(comps: seq<Component>, k: nat)
    requires StaysIn(comps) && k <= |comps|
    ensures StaysIn(comps[..k])
  {
    assert forall i :: 0 <= i <= k ==> comps[..k][..i] == comps[..i];
  }

  /** Cancelling a name takes the text back to what it was before that name. */
  lemma {:induction false} OpenNames(comps: seq<Component>, i: nat)
    requires StaysIn(comps) && i < |Open(comps)|
    ensures |Open(comps)| == |Follow([], comps)|
    ensures Follow([], comps[..Open(comps)[i]]) == Follow([], comps)[..i]
    decreases |comps|
  {
    var n := |comps| - 1;
    StaysInPrefix(comps, n);
    OpenCount(comps);
    OpenCount(comps[..n]);
    if i < |Open(comps[..n])| {
      OpenNames(comps[..n], i);
      assert comps[..n][..Open(comps[..n])[i]] == comps[..Open(comps[..n])[i]];
    }
  }

  lemma {:induction false} OpenCount(comps: seq<Component>)
    requires StaysIn(comps)
    ensures |Open(comps)| == |Follow([], comps)| == NameCount(comps) - UpCount(comps)
    ensures UpCount(comps) <= NameCount(comps)
  {
    FollowStaysBelow([], comps);
    assert comps[..|comps|] == comps;
    if comps != [] {
      var n := |comps| - 1;
      StaysInPrefix(comps, n);
      OpenCount(comps[..n]);
      assert comps[n] in comps;
    }
  }

  /** The position of the name the `..` at `k` cancels. */
  function NameCancelled(comps: seq<Component>, k: nat): (j: nat)
    requires k < |comps| && Open(comps[..k]) != []
    ensures j < k
  {
    Open(comps[..k])[|Open(comps[..k])| - 1]
  }

  lemma SomethingToCancel(comps: seq<Component>, k: nat)
    requires StaysIn(comps) && k < |comps| && comps[k].ParentDir?
    ensures Open(comps[..k]) != []
    ensures Follow([], comps[..k + 1]) == Follow([], comps[..NameCancelled(comps, k)])
  {
    StaysInPrefix(comps, k);
    StaysInPrefix(comps, k + 1);
    OpenCount(comps[..k]);
    OpenCount(comps[..k + 1]);
    assert comps[..k + 1][..k] == comps[..k];
    var last := |Open(comps[..k])| - 1;
    OpenNames(comps[..k], last);
    assert comps[..k][..Open(comps[..k])[last]] == comps[..Open(comps[..k])[last]];
  }

  // ---------------------------------------------------------------- when the two agree

  /** Where the system is after `k` components, if it gets there. */
  function PlaceAt(fs: FileSystem, ws: Path, comps: seq<Component>, k: nat): Option<Path>
    requires k <= |comps|
  {
    Walk(fs, ws, comps[..k], fs.maxLinks)
  }

  /** The `..` at `k` takes the system back to where the name it cancels was looked up: the name is
      a real directory, or a link to a directory right there. Where the system does not get to the
      `..` at all, it did not get to that name either. */
  predicate LeadsBack(fs: FileSystem, ws: Path, comps: seq<Component>, k: nat)
    requires k < |comps|
  {
    && Open(comps[..k]) != []
    && var before, at := PlaceAt(fs, ws, comps, NameCancelled(comps, k)), PlaceAt(fs, ws, comps, k);
       if at.Some? then fs.IsDir(at.value) && before == Some(Parent(at.value)) else before.None?
  }

  predicate DotsLeadBack(fs: FileSystem, ws: Path, comps: seq<Component>)
  {
    forall k :: 0 <= k < |comps| && comps[k].ParentDir? ==> LeadsBack(fs, ws, comps, k)
  }

  lemma StepOn(fs: FileSystem, ws: Path, comps: seq<Component>)
    requires comps != []
    ensures var n := |comps| - 1;
      var before := Trail(fs, ws, comps[..n], fs.maxLinks);
      Trail(fs, ws, comps, fs.maxLinks)
      == if before.Some? then Trail(fs, before.value.place, [comps[n]], before.value.linksLeft) else None
  {
    hide Trail;
    var n := |comps| - 1;
    assert comps == comps[..n] + [comps[n]];
    TrailConcat(fs, ws, comps[..n], [comps[n]], fs.maxLinks);
  }

  lemma PrefixArrives(fs: FileSystem, ws: Path, comps: seq<Component>, k: nat)
    requires k <= |comps| && Walk(fs, ws, comps, fs.maxLinks).Some?
    ensures Trail(fs, ws, comps[..k], fs.maxLinks).Some?
    ensures Trail(fs, ws, comps, fs.maxLinks).value.linksLeft <= Trail(fs, ws, comps[..k], fs.maxLinks).value.linksLeft
  {
    hide Trail;
    assert comps == comps[..k] + comps[k..];
    TrailConcat(fs, ws, comps[..k], comps[k..], fs.maxLinks);
  }

  /** The links the system would have to spare here if it had not followed those of the names that
      have been cancelled. */
  function SpareLinks(fs: FileSystem, ws: Path, comps: seq<Component>): (spare: nat)
    ensures var here := Trail(fs, ws, comps, fs.maxLinks); here.Some? ==> here.value.linksLeft <= spare
    decreases |comps|
  {
    if comps == [] then fs.maxLinks
    else
      var n := |comps| - 1;
      var here := Trail(fs, ws, comps, fs.maxLinks);
      if here.None? then 0
      else
        PrefixArrives(fs, ws, comps, n);
        match comps[n]
        case Normal(_) =>
          var followed := Trail(fs, ws, comps[..n], fs.maxLinks).value.linksLeft - here.value.linksLeft;
          SpareLinks(fs, ws, comps[..n]) - followed
        case ParentDir =>
          if Open(comps[..n]) == [] then here.value.linksLeft
          else
            PrefixArrives(fs, ws, comps, NameCancelled(comps, n));
            SpareLinks(fs, ws, comps[..NameCancelled(comps, n)])
        case _ => SpareLinks(fs, ws, comps[..n])
  }

  /**
   * Component `k` keeps the text and the system in step. A `.` stands in a directory; a `..` leads
   * back; and a name the system gives up at stays out of reach with the links of cancelled names
   * to spare.
   */
  predicate InStep(fs: FileSystem, ws: Path, comps: seq<Component>, k: nat)
    requires k < |comps|
  {
    var at := PlaceAt(fs, ws, comps, k);
    match comps[k]
    case CurDir => at.Some? ==> fs.IsDir(at.value)
    case ParentDir => LeadsBack(fs, ws, comps, k)
    case Normal(_) =>
      at.Some? && PlaceAt(fs, ws, comps, k + 1).None? ==>
        Trail(fs, at.value, [comps[k]], SpareLinks(fs, ws, comps[..k])).None?
    case RootDir => false
  }

  predicate AllInStep(fs: FileSystem, ws: Path, comps: seq<Component>)
  {
    forall k :: 0 <= k < |comps| ==> InStep(fs, ws, comps, k)
  }

  /** What is left of a path after the text was tidied up denotes what the path denotes: the same
      entry, or for both nothing the system gets to. */
  predicate AgreeOn(fs: FileSystem, ws: Path, comps: seq<Component>)
  {
    Canonicalize(fs, ws + Follow([], comps)) == Walk(fs, ws, comps, fs.maxLinks)
  }

  lemma StepsOfPrefix(fs: FileSystem, ws: Path, comps: seq<Component>, n: nat)
    requires n <= |comps|
    ensures forall k :: 0 <= k < n ==> InStep(fs, ws, comps[..n], k) == InStep(fs, ws, comps, k)
  {
    hide Walk;
    assert forall k :: 0 <= k <= n ==> comps[..n][..k] == comps[..k];
  }

  /** Where the tidied text leads, and with how many links to spare. */
  predicate Tidied(fs: FileSystem, ws: Path, comps: seq<Component>)
  {
    var tidy := Trail(fs, [], Names(ws + Follow([], comps)), fs.maxLinks);
    var here := Trail(fs, ws, comps, fs.maxLinks);
    tidy == if here.Some? then Some(Arrival(here.value.place, SpareLinks(fs, ws, comps))) else None
  }

  lemma TidiedAgree(fs: FileSystem, ws: Path, comps: seq<Component>)
    requires Tidied(fs, ws, comps)
    ensures AgreeOn(fs, ws, comps)
  {
    hide Trail;
  }

  /** As long as every component keeps them in step, the text leads where the system goes. */
  lemma {:induction false} InStepTidied(fs: FileSystem, ws: Path, comps: seq<Component>)
    requires IsWorkspace(fs, ws) && StaysIn(comps) && AllInStep(fs, ws, comps)
    ensures Tidied(fs, ws, comps)
    decreases |comps|
  {
    hide Trail, StaysIn, Tidied, InStep;
    if comps == [] {
      NothingToTidy(fs, ws);
    } else {
      var n := |comps| - 1;
      assert InStep(fs, ws, comps, n);
      StaysInPrefix(comps, n);
      StepsOfPrefix(fs, ws, comps, n);
      InStepTidied(fs, ws, comps[..n]);
      match comps[n]
      case Normal(_) => NameTidied(fs, ws, comps);
      case CurDir => StandingTidied(fs, ws, comps);
      case ParentDir =>
        SomethingToCancel(comps, n);
        var j := NameCancelled(comps, n);
        StaysInPrefix(comps, j);
        StepsOfPrefix(fs, ws, comps, j);
        InStepTidied(fs, ws, comps[..j]);
        DotsTidied(fs, ws, comps);
      case RootDir => NoRoot(comps);
    }
  }

  lemma NoRoot(comps: seq<Component>)
    ensures StaysIn(comps) && comps != [] ==> !comps[|comps| - 1].RootDir?
  {
    if comps != [] {
      assert comps[|comps| - 1] in comps;
    }
  }

  lemma NothingToTidy(fs: FileSystem, ws: Path)
    requires IsWorkspace(fs, ws)
    ensures Tidied(fs, ws, [])
  {
    RealPathIsFixed(fs, ws, 0, fs.maxLinks);
    assert ws[..0] == [] && ws[0..] == ws && ws + [] == ws;
  }

  /** A name is looked up in the same place either way. */
  lemma NameTidied(fs: FileSystem, ws: Path, comps: seq<Component>)
    requires comps != [] && comps[|comps| - 1].Normal? && InStep(fs, ws, comps, |comps| - 1)
    requires Tidied(fs, ws, comps[..|comps| - 1])
    ensures Tidied(fs, ws, comps)
  {
    hide Trail;
    var n := |comps| - 1;
    var name := comps[n].name;
    var path := ws + Follow([], comps[..n]);
    StepOn(fs, ws, comps);
    assert comps[..n + 1] == comps;
    assert ws + Follow([], comps) == path + [name];
    assert Names(path + [name]) == Names(path) + [Normal(name)];
    TrailConcat(fs, [], Names(path), [Normal(name)], fs.maxLinks);
    var before := Trail(fs, ws, comps[..n], fs.maxLinks);
    if before.Some? && Trail(fs, ws, comps, fs.maxLinks).Some? {
      TrailWithMoreLinks(fs, before.value.place, [Normal(name)], before.value.linksLeft,
                         SpareLinks(fs, ws, comps[..n]) - before.value.linksLeft);
    }
  }

  lemma StandingTidied(fs: FileSystem, ws: Path, comps: seq<Component>)
    requires comps != [] && comps[|comps| - 1].CurDir? && InStep(fs, ws, comps, |comps| - 1)
    requires Tidied(fs, ws, comps[..|comps| - 1])
    ensures Tidied(fs, ws, comps)
  {
    hide Trail;
    var n := |comps| - 1;
    StepOn(fs, ws, comps);
    var before := Trail(fs, ws, comps[..n], fs.maxLinks);
    if before.Some? {
      StandStill(fs, before.value.place, before.value.linksLeft);
    }
  }

  lemma StandStill(fs: FileSystem, base: Path, links: nat)
    ensures Trail(fs, base, [CurDir], links) == if fs.IsDir(base) then Some(Arrival(base, links)) else None
    ensures
      Trail(fs, base, [ParentDir], links) == if fs.IsDir(base) then Some(Arrival(Parent(base), links)) else None
  {
    assert [CurDir][1..] == [] && [ParentDir][1..] == [];
  }

  lemma DotsTidied(fs: FileSystem, ws: Path, comps: seq<Component>)
    requires comps != [] && comps[|comps| - 1].ParentDir? && StaysIn(comps) && InStep(fs, ws, comps, |comps| - 1)
    requires Tidied(fs, ws, comps[..NameCancelled(comps, |comps| - 1)])
    ensures Tidied(fs, ws, comps)
  {
    hide Trail, StaysIn;
    var n := |comps| - 1;
    var j := NameCancelled(comps, n);
    StepOn(fs, ws, comps);
    SomethingToCancel(comps, n);
    assert comps[..n + 1] == comps;
    var before := Trail(fs, ws, comps[..n], fs.maxLinks);
    if before.Some? {
      StandStill(fs, before.value.place, before.value.linksLeft);
    }
  }

  /**
   * The exact condition, for every path the lexical stage lets pass: at every step along it the
   * tidied text denotes what the path denotes, if and only if every component keeps the two in step.
   * Links are followed as far as the system follows them, and the system may refuse the path.
   */
  lemma ResolverAgreesExactly(fs: FileSystem, ws: Path, comps: seq<Component>)
    requires IsWorkspace(fs, ws) && StaysIn(comps)
    ensures (forall k :: 0 <= k <= |comps| ==> AgreeOn(fs, ws, comps[..k])) <==> AllInStep(fs, ws, comps)
  {
    hide StaysIn, InStep, AgreeOn, Tidied;
    if AllInStep(fs, ws, comps) {
      forall k | 0 <= k <= |comps| ensures AgreeOn(fs, ws, comps[..k]) {
        StaysInPrefix(comps, k);
        StepsOfPrefix(fs, ws, comps, k);
        InStepTidied(fs, ws, comps[..k]);
        TidiedAgree(fs, ws, comps[..k]);
      }
    }
    if forall k :: 0 <= k <= |comps| ==> AgreeOn(fs, ws, comps[..k]) {
      InStepUpTo(fs, ws, comps, |comps|);
    }
  }

  lemma {:induction false} InStepUpTo(fs: FileSystem, ws: Path, comps: seq<Component>, n: nat)
    requires IsWorkspace(fs, ws) && StaysIn(comps) && n <= |comps|
    requires forall k :: 0 <= k <= n ==> AgreeOn(fs, ws, comps[..k])
    ensures forall k :: 0 <= k < n ==> InStep(fs, ws, comps, k)
  {
    hide StaysIn, InStep, AgreeOn, Tidied;
    if n > 0 {
      var k := n - 1;
      InStepUpTo(fs, ws, comps, k);
      StaysInPrefix(comps, k);
      StepsOfPrefix(fs, ws, comps, k);
      InStepTidied(fs, ws, comps[..k]);
      StepsOfPrefix(fs, ws, comps, n);
      StaysInPrefix(comps, n);
      var upTo := comps[..n];
      assert upTo[..k] == comps[..k] && upTo[k] == comps[k];
      if upTo[k].ParentDir? {
        SomethingToCancel(upTo, k);
        var j := NameCancelled(upTo, k);
        assert upTo[..j] == comps[..j];
      }
      NoRoot(upTo);
      AgreedStep(fs, ws, upTo);
    }
  }

  /** Text and system that agree before and after a component were kept in step by it. */
  lemma AgreedStep(fs: FileSystem, ws: Path, comps: seq<Component>)
    requires StaysIn(comps) && comps != [] && !comps[|comps| - 1].RootDir?
    requires Tidied(fs, ws, comps[..|comps| - 1]) && AgreeOn(fs, ws, comps)
    requires comps[|comps| - 1].ParentDir? ==>
      Open(comps[..|comps| - 1]) != [] && AgreeOn(fs, ws, comps[..NameCancelled(comps, |comps| - 1)])
    ensures InStep(fs, ws, comps, |comps| - 1)
  {
    hide Trail, StaysIn;
    var n := |comps| - 1;
    StepOn(fs, ws, comps);
    assert comps[..n + 1] == comps;
    var before := Trail(fs, ws, comps[..n], fs.maxLinks);
    if before.Some? {
      StandStill(fs, before.value.place, before.value.linksLeft);
    }
    match comps[n]
    case CurDir =>
    case ParentDir =>
      SomethingToCancel(comps, n);
      if before.Some? {
        PrefixArrives(fs, ws, comps[..n], NameCancelled(comps, n));
        assert comps[..n][..NameCancelled(comps, n)] == comps[..NameCancelled(comps, n)];
      }
    case Normal(name) =>
      var path := ws + Follow([], comps[..n]);
      assert ws + Follow([], comps) == path + [name];
      assert Names(path + [name]) == Names(path) + [Normal(name)];
      TrailConcat(fs, [], Names(path), [Normal(name)], fs.maxLinks);
  }

  /** They part ways exactly at the first component that does not keep them in step. */
  lemma FirstMisstep(fs: FileSystem, ws: Path, comps: seq<Component>, k: nat)
    requires IsWorkspace(fs, ws) && StaysIn(comps)
    requires k < |comps| && !InStep(fs, ws, comps, k) && forall i :: 0 <= i < k ==> InStep(fs, ws, comps, i)
    ensures forall i :: 0 <= i <= k ==> AgreeOn(fs, ws, comps[..i])
    ensures !AgreeOn(fs, ws, comps[..k + 1])
  {
    hide StaysIn, InStep, AgreeOn;
    StaysInPrefix(comps, k);
    StepsOfPrefix(fs, ws, comps, k);
    ResolverAgreesExactly(fs, ws, comps[..k]);
    forall i | 0 <= i <= k ensures AgreeOn(fs, ws, comps[..i]) {
      assert comps[..k][..i] == comps[..i];
    }
    if AgreeOn(fs, ws, comps[..k + 1]) {
      InStepUpTo(fs, ws, comps, k + 1);
    }
  }

  /** Where the system gets past a `.` or `..` it stood in a directory. */
  lemma StandsInDirectory(fs: FileSystem, ws: Path, comps: seq<Component>, k: nat)
    requires k < |comps| && (comps[k].CurDir? || comps[k].ParentDir?)
    requires Walk(fs, ws, comps, fs.maxLinks).Some?
    ensures PlaceAt(fs, ws, comps, k).Some? && fs.IsDir(PlaceAt(fs, ws, comps, k).value)
  {
    hide Trail;
    PrefixArrives(fs, ws, comps, k + 1);
    StepOn(fs, ws, comps[..k + 1]);
    assert comps[..k + 1][..k] == comps[..k];
    var before := Trail(fs, ws, comps[..k], fs.maxLinks).value;
    StandStill(fs, before.place, before.linksLeft);
  }

  /** On a path the system resolves, only a `..` can be a misstep. */
  lemma OnlyDotsStray(fs: FileSystem, ws: Path, comps: seq<Component>)
    requires StaysIn(comps) && Walk(fs, ws, comps, fs.maxLinks).Some?
    ensures AllInStep(fs, ws, comps) <==> DotsLeadBack(fs, ws, comps)
  {
    hide Trail, LeadsBack, StaysIn;
    forall k | 0 <= k < |comps| && !comps[k].ParentDir? ensures InStep(fs, ws, comps, k) {
      PrefixArrives(fs, ws, comps, k + 1);
      StaysInPrefix(comps, k + 1);
      NoRoot(comps[..k + 1]);
      if comps[k].CurDir? {
        StandsInDirectory(fs, ws, comps, k);
      }
    }
    assert forall k :: 0 <= k < |comps| && comps[k].ParentDir? ==>
      InStep(fs, ws, comps, k) == LeadsBack(fs, ws, comps, k);
  }

  lemma TidyPathAgrees(fs: FileSystem, ws: Path, comps: seq<Component>)
    requires IsWorkspace(fs, ws) && StaysIn(comps) && DotsLeadBack(fs, ws, comps)
    requires Walk(fs, ws, comps, fs.maxLinks).Some?
    ensures AgreeOn(fs, ws, comps)
  {
    hide Trail, StaysIn, InStep, Tidied;
    OnlyDotsStray(fs, ws, comps);
    InStepTidied(fs, ws, comps);
    TidiedAgree(fs, ws, comps);
  }

  // ---------------------------------------------------------------- what the resolver hands out

  lemma DenotedIsThere(fs: FileSystem, path: Path)
    requires Canonicalize(fs, path).Some?
    ensures LstatSucceeds(fs, path)
  {
    hide Trail;
    if path != [] {
      var init, last := path[..|path| - 1], path[|path| - 1];
      assert Names(path) == Names(init) + [Normal(last)];
      TrailConcat(fs, [], Names(init), [Normal(last)], fs.maxLinks);
      var before := Trail(fs, [], Names(init), fs.maxLinks).value;
      NameIsThere(fs, before.place, last, before.linksLeft);
    }
  }

  /** Text that denotes an entry is kept whole, and handed out as that entry unless it lies outside
      or has other names. */
  lemma DenotedIsHandedOut(fs: FileSystem, ws: Path, names: Path, p: Path)
    requires Canonicalize(fs, ws + names) == Some(p)
    ensures DeepestExisting(fs, ws, names) == |names|
    ensures ThroughSymlinks(fs, ws, names) == if ws <= p && !IsHardLinked(fs, p) then Ok(p) else Err(PathEscape)
  {
    hide Canonicalize, LstatSucceeds;
    assert names[..|names|] == names && names[|names|..] == [] && p + [] == p;
    DenotedIsThere(fs, ws + names);
  }

  lemma NameIsThere(fs: FileSystem, base: Path, name: string, links: nat)
    requires Trail(fs, base, [Normal(name)], links).Some?
    ensures fs.IsDir(base) && base + [name] in fs.nodes
  {
  }

  /** Where the system reaches an entry from the workspace by a path whose every `..` leads back,
      following links as it does, the resolver hands out that very entry, or refuses it because it
      lies outside the workspace or has other names. */
  lemma ResolverAgreesWithTheSystem(fs: FileSystem, ws: Path, comps: seq<Component>, p: Path)
    requires IsWorkspace(fs, ws) && StaysIn(comps) && DotsLeadBack(fs, ws, comps)
    requires Walk(fs, ws, comps, fs.maxLinks) == Some(p)
    ensures
      var names := Follow([], comps);
      && Canonicalize(fs, ws + names) == Some(p) && DeepestExisting(fs, ws, names) == |names|
      && ThroughSymlinks(fs, ws, names) == if ws <= p && !IsHardLinked(fs, p) then Ok(p) else Err(PathEscape)
  {
    hide Trail, Walk, StaysIn, Canonicalize, DeepestExisting, ThroughSymlinks;
    TidyPathAgrees(fs, ws, comps);
    DenotedIsHandedOut(fs, ws, Follow([], comps), p);
  }

  /** The same for a path to something that does not exist yet: it is handed out below the entry the
      system reaches. */
  lemma ResolverAgreesOnNewEntries(fs: FileSystem, ws: Path, comps: seq<Component>, tail: Path, p: Path)
    requires IsWorkspace(fs, ws) && StaysIn(comps) && DotsLeadBack(fs, ws, comps)
    requires Walk(fs, ws, comps, fs.maxLinks) == Some(p)
    requires tail != [] && p + [tail[0]] !in fs.nodes
    ensures
      ThroughSymlinks(fs, ws, Follow([], comps) + tail)
      == if ws <= p && !IsHardLinked(fs, p) then Ok(p + tail) else Err(PathEscape)
  {
    hide Trail, Walk, StaysIn, Canonicalize, LstatSucceeds, ThroughSymlinks;
    var names := Follow([], comps);
    ResolverAgreesWithTheSystem(fs, ws, comps, p);
    NewTailIsStripped(fs, ws, names, p, tail, |tail|);
    assert tail[..|tail|] == tail;
    StrippedOutcome(fs, ws, names, p, tail);
  }

  lemma StrippedOutcome(fs: FileSystem, ws: Path, names: Path, p: Path, tail: Path)
    requires DeepestExisting(fs, ws, names + tail) == |names| && Canonicalize(fs, ws + names) == Some(p)
    ensures
      ThroughSymlinks(fs, ws, names + tail)
      == if ws <= p && !IsHardLinked(fs, p) then Ok(p + tail) else Err(PathEscape)
  {
    hide Canonicalize, DeepestExisting;
    assert (names + tail)[..|names|] == names && (names + tail)[|names|..] == tail;
  }

  lemma {:induction false} NewTailIsStripped(fs: FileSystem, ws: Path, names: Path, p: Path, tail: Path, n: nat)
    requires IsWorkspace(fs, ws) && Canonicalize(fs, ws + names) == Some(p) && n <= |tail|
    requires DeepestExisting(fs, ws, names) == |names|
    requires n > 0 ==> p + [tail[0]] !in fs.nodes
    ensures DeepestExisting(fs, ws, names + tail[..n]) == |names|
  {
    hide LstatSucceeds, Canonicalize;
    if n == 0 {
      assert names + tail[..0] == names;
    } else {
      NewTailIsStripped(fs, ws, names, p, tail, n - 1);
      assert (names + tail[..n])[..|names| + n - 1] == names + tail[..n - 1];
      NothingThere(fs, ws + names, p, tail, n);
      assert ws + (names + tail[..n]) == ws + names + tail[..n];
    }
  }

  lemma NothingThere(fs: FileSystem, path: Path, p: Path, tail: Path, n: nat)
    requires Canonicalize(fs, path) == Some(p) && 0 < n <= |tail| && p + [tail[0]] !in fs.nodes
    ensures !LstatSucceeds(fs, path + tail[..n])
  {
    hide Trail;
    var whole := path + tail[..n];
    var init := whole[..|whole| - 1];
    assert init == path + tail[..n - 1];
    if n == 1 {
      assert init == path;
    } else {
      var rest := tail[1..n - 1];
      assert Names(init) == Names(path) + ([Normal(tail[0])] + Names(rest));
      TrailConcat(fs, [], Names(path), [Normal(tail[0])] + Names(rest), fs.maxLinks);
      MissingStops(fs, p, tail[0], Names(rest), Trail(fs, [], Names(path), fs.maxLinks).value.linksLeft);
    }
  }

  lemma MissingStops(fs: FileSystem, base: Path, name: string, rest: seq<Component>, links: nat)
    requires base + [name] !in fs.nodes
    ensures Trail(fs, base, [Normal(name)] + rest, links).None?
  {
  }

  /** A path the system refuses at the very component where the two fall out of step is handed out all
      the same, as whatever its tidied text denotes, unless that is outside or has other names. */
  lemma RefusedYetHandedOut(fs: FileSystem, ws: Path, comps: seq<Component>, k: nat) returns (p: Path)
    requires IsWorkspace(fs, ws) && StaysIn(comps)
    requires k < |comps| && !InStep(fs, ws, comps, k) && forall i :: 0 <= i < k ==> InStep(fs, ws, comps, i)
    requires PlaceAt(fs, ws, comps, k + 1).None?
    ensures
      var names := Follow([], comps[..k + 1]);
      && Canonicalize(fs, ws + names) == Some(p)
      && ThroughSymlinks(fs, ws, names) == if ws <= p && !IsHardLinked(fs, p) then Ok(p) else Err(PathEscape)
  {
    hide Walk, StaysIn, InStep, Canonicalize, DeepestExisting, ThroughSymlinks;
    FirstMisstep(fs, ws, comps, k);
    p := Canonicalize(fs, ws + Follow([], comps[..k + 1])).value;
    DenotedIsHandedOut(fs, ws, Follow([], comps[..k + 1]), p);
  }

  // ---------------------------------------------------------------- special cases

  lemma {:induction false} SpareIsLeft(fs: FileSystem, ws: Path, comps: seq<Component>)
    requires ParentDir !in comps && Trail(fs, ws, comps, fs.maxLinks).Some? && StaysIn(comps)
    ensures SpareLinks(fs, ws, comps) == Trail(fs, ws, comps, fs.maxLinks).value.linksLeft
  {
    hide Trail, StaysIn;
    if comps == [] {
      NothingWalked(fs, ws);
    } else {
      var n := |comps| - 1;
      PrefixArrives(fs, ws, comps, n);
      StaysInPrefix(comps, n);
      SpareIsLeft(fs, ws, comps[..n]);
      StepOn(fs, ws, comps);
      NoRoot(comps);
      assert comps[n] in comps;
      var before := Trail(fs, ws, comps[..n], fs.maxLinks).value;
      StandStill(fs, before.place, before.linksLeft);
    }
  }

  lemma NothingWalked(fs: FileSystem, ws: Path)
    ensures Trail(fs, ws, [], fs.maxLinks) == Some(Arrival(ws, fs.maxLinks))
  {
  }

  /** Without a `..` no link is cancelled, and the limit plays no part: only a `.` that stands in no
      directory is a misstep. */
  lemma WithoutDotsInStep(fs: FileSystem, ws: Path, comps: seq<Component>)
    requires StaysIn(comps) && ParentDir !in comps
    ensures AllInStep(fs, ws, comps) <==>
      forall k :: 0 <= k < |comps| && comps[k].CurDir? && PlaceAt(fs, ws, comps, k).Some? ==>
        fs.IsDir(PlaceAt(fs, ws, comps, k).value)
  {
    hide Trail, StaysIn;
    forall k | 0 <= k < |comps| && !comps[k].CurDir? ensures InStep(fs, ws, comps, k) {
      assert comps[k] in comps;
      StaysInPrefix(comps, k);
      StaysInPrefix(comps, k + 1);
      NoRoot(comps[..k + 1]);
      StepOn(fs, ws, comps[..k + 1]);
      assert comps[..k + 1][..k] == comps[..k];
      if PlaceAt(fs, ws, comps, k).Some? {
        assert forall c :: c in comps[..k] ==> c in comps;
        SpareIsLeft(fs, ws, comps[..k]);
      }
    }
    assert forall k :: 0 <= k < |comps| && InStep(fs, ws, comps, k) && comps[k].CurDir? ==>
      (PlaceAt(fs, ws, comps, k).Some? ==> fs.IsDir(PlaceAt(fs, ws, comps, k).value));
  }

  /** A path without `..` means to the resolver what it means to the system, links and all. */
  lemma WithoutDotsTheyAgree(fs: FileSystem, ws: Path, comps: seq<Component>, p: Path)
    requires IsWorkspace(fs, ws) && StaysIn(comps) && ParentDir !in comps
    requires Walk(fs, ws, comps, fs.maxLinks) == Some(p)
    ensures
      ThroughSymlinks(fs, ws, Follow([], comps)) == if ws <= p && !IsHardLinked(fs, p) then Ok(p) else Err(PathEscape)
  {
    hide Walk, StaysIn, ThroughSymlinks, LeadsBack;
    assert forall k :: 0 <= k < |comps| ==> comps[k] in comps && comps[k] != ParentDir;
    assert DotsLeadBack(fs, ws, comps);
    ResolverAgreesWithTheSystem(fs, ws, comps, p);
  }

  /** With no link to follow, the system goes where the components lead. */
  lemma {:induction false} TrailWithoutLinks(fs: FileSystem, base: Path, todo: seq<Component>)
    requires Trail(fs, base, todo, 0).Some?
    ensures Trail(fs, base, todo, 0) == Some(Arrival(Follow(base, todo), 0))
    decreases |todo|
  {
    if todo != [] {
      var next := Follow(base, [todo[0]]);
      assert [todo[0]][..0] == [];
      assert todo == [todo[0]] + todo[1..];
      FollowFrom(base, todo[0], todo[1..]);
      TrailWithoutLinks(fs, next, todo[1..]);
    }
  }

  lemma {:induction false} FollowFrom(base: Path, first: Component, rest: seq<Component>)
    ensures Follow(base, [first] + rest) == Follow(Follow(base, [first]), rest)
  {
    if rest == [] {
      assert [first] + rest == [first];
    } else {
      var n := |rest| - 1;
      FollowFrom(base, first, rest[..n]);
      assert ([first] + rest)[..n + 1] == [first] + rest[..n];
    }
  }

  /** Where no link is on the way every `..` leads back, and the place is the one the text names. */
  lemma LinklessPathsAgree(fs: FileSystem, ws: Path, comps: seq<Component>)
    requires IsWorkspace(fs, ws) && StaysIn(comps) && Walk(fs, ws, comps, 0).Some?
    ensures DotsLeadBack(fs, ws, comps)
    ensures Walk(fs, ws, comps, fs.maxLinks) == Some(ws + Follow([], comps))
  {
    hide Trail, StaysIn, Follow;
    forall k | 0 <= k <= |comps|
      ensures PlaceAt(fs, ws, comps, k) == Some(ws + Follow([], comps[..k]))
    {
      LinklessPlace(fs, ws, comps, k);
    }
    assert comps[..|comps|] == comps;
    forall k | 0 <= k < |comps| && comps[k].ParentDir? ensures LeadsBack(fs, ws, comps, k) {
      SomethingToCancel(comps, k);
      OneUp(ws, comps, k);
      LinklessDots(fs, ws, comps, k);
    }
  }

  lemma LinklessDots(fs: FileSystem, ws: Path, comps: seq<Component>, k: nat)
    requires k < |comps| && comps[k].ParentDir? && Walk(fs, ws, comps, 0).Some?
    ensures PlaceAt(fs, ws, comps, k).Some? && fs.IsDir(PlaceAt(fs, ws, comps, k).value)
  {
    TrailWithMoreLinks(fs, ws, comps, 0, fs.maxLinks);
    StandsInDirectory(fs, ws, comps, k);
  }

  lemma LinklessPlace(fs: FileSystem, ws: Path, comps: seq<Component>, k: nat)
    requires StaysIn(comps) && Walk(fs, ws, comps, 0).Some? && k <= |comps|
    ensures PlaceAt(fs, ws, comps, k) == Some(ws + Follow([], comps[..k]))
  {
    hide Trail;
    assert comps == comps[..k] + comps[k..];
    TrailConcat(fs, ws, comps[..k], comps[k..], 0);
    TrailWithoutLinks(fs, ws, comps[..k]);
    TrailWithMoreLinks(fs, ws, comps[..k], 0, fs.maxLinks);
    StaysInPrefix(comps, k);
    FollowStaysBelow(ws, comps[..k]);
  }

  lemma OneUp(ws: Path, comps: seq<Component>, k: nat)
    requires StaysIn(comps) && k < |comps| && comps[k].ParentDir?
    ensures ws + Follow([], comps[..k + 1]) == Parent(ws + Follow([], comps[..k]))
  {
    SomethingToCancel(comps, k);
    StaysInPrefix(comps, k);
    OpenCount(comps[..k]);
    assert comps[..k + 1][..k] == comps[..k];
  }

  // ---------------------------------------------------------------- missteps, one by one

  // A workspace `w` in which `d` is a link to the directory above.
  const STRAY := FileSystem(map[[] := Dir, ["w"] := Dir, ["w", "d"] := Link([ParentDir])], 1)

  /** A `..` that does not lead back: the resolver hands out the workspace itself for `d/..`, and the
      system is outside it. */
  lemma StrayDotsInstance()
    ensures IsWorkspace(STRAY, ["w"]) && Components("d/..") == [Normal("d"), ParentDir]
    ensures !LeadsBack(STRAY, ["w"], [Normal("d"), ParentDir], 1)
    ensures Walk(STRAY, ["w"], [Normal("d"), ParentDir], 1) == Some([])
    ensures Resolved(STRAY, ["w"], "d/..") == Ok(["w"])
  {
    hide *;
    StraySystem();
    StrayIsWorkspace();
    StrayDots();
    OneLetterIsPlain();
    DotsText("d");
    assert "d" + "/.." == "d/..";
    assert ["w"] + [] == ["w"];
    TextHandedOut(STRAY, ["w"], "d/..", [], ["w"]);
  }

  // A workspace `w` with a file `f`, a directory `r`, and links `d` to `r` and `e` to `f`, in a system
  // that follows one link.
  const REFUSING := FileSystem(
    map[[] := Dir, ["w"] := Dir, ["w", "f"] := File(1), ["w", "r"] := Dir,
        ["w", "d"] := Link([Normal("r")]), ["w", "e"] := Link([Normal("f")])], 1)

  /** Paths the system refuses and the resolver hands out: a `..` or a `.` behind a file, a `..` behind
      nothing at all, and a link too many where the text has cancelled the first. */
  lemma RefusedInstances()
    ensures IsWorkspace(REFUSING, ["w"])
    ensures RefusedButResolved("f/..", ["w"])
    ensures RefusedButResolved("f/.", ["w", "f"])
    ensures RefusedButResolved("m/../f", ["w", "f"])
    ensures RefusedButResolved("d/../e", ["w", "f"])
  {
    hide RefusedButResolved;
    RefusingPlaces();
    DotsBehindFile();
    DotBehindFile();
    DotsBehindNothing();
    OneLinkTooMany();
  }

  ghost predicate RefusedButResolved(rel: string, p: Path)
  {
    && Walk(REFUSING, ["w"], Components(rel), 1).None?
    && Resolved(REFUSING, ["w"], rel) == Ok(p)
  }

  lemma RefusedText(rel: string, comps: seq<Component>, names: Path, p: Path)
    requires Components(rel) == comps && StaysIn(comps) && Follow([], comps) == names && |JoinSlash(names)| < 4
    requires Walk(REFUSING, ["w"], comps, 1).None?
    requires Canonicalize(REFUSING, ["w"] + names) == Some(p) && ["w"] <= p && !IsHardLinked(REFUSING, p)
    ensures RefusedButResolved(rel, p)
  {
    hide Walk, Components, Resolved, Canonicalize, IsHardLinked;
    TextHandedOut(REFUSING, ["w"], rel, names, p);
  }

  lemma DotsBehindFile()
    ensures RefusedButResolved("f/..", ["w"])
  {
    hide *;
    OneLetterIsPlain();
    RefusingSystem();
    RefusingPlaces();
    DotsText("f");
    assert "f" + "/.." == "f/.." && ["w"] + [] == ["w"];
    RefusedText("f/..", [Normal("f"), ParentDir], [], ["w"]);
  }

  lemma DotBehindFile()
    ensures RefusedButResolved("f/.", ["w", "f"])
  {
    hide *;
    OneLetterIsPlain();
    RefusingSystem();
    RefusingPlaces();
    StandingText("f");
    assert "f" + "/." == "f/." && ["w"] + ["f"] == ["w", "f"];
    RefusedText("f/.", [Normal("f"), CurDir], ["f"], ["w", "f"]);
  }

  lemma DotsBehindNothing()
    ensures RefusedButResolved("m/../f", ["w", "f"])
  {
    hide *;
    OneLetterIsPlain();
    RefusingSystem();
    RefusingPlaces();
    DetourText("m", "f");
    assert "m" + "/../" + "f" == "m/../f" && ["w"] + ["f"] == ["w", "f"];
    RefusedText("m/../f", [Normal("m"), ParentDir, Normal("f")], ["f"], ["w", "f"]);
  }

  lemma OneLinkTooMany()
    ensures RefusedButResolved("d/../e", ["w", "f"])
  {
    hide *;
    OneLetterIsPlain();
    RefusingSystem();
    RefusingPlaces();
    DetourText("d", "e");
    assert "d" + "/../" + "e" == "d/../e" && ["w"] + ["e"] == ["w", "e"];
    RefusedText("d/../e", [Normal("d"), ParentDir, Normal("e")], ["e"], ["w", "f"]);
  }

  lemma TextHandedOut(fs: FileSystem, ws: Path, rel: string, names: Path, p: Path)
    requires StaysIn(Components(rel)) && Follow([], Components(rel)) == names
    requires |JoinSlash(names)| < 4
    requires Canonicalize(fs, ws + names) == Some(p) && ws <= p && !IsHardLinked(fs, p)
    ensures Resolved(fs, ws, rel) == Ok(p)
  {
    hide Components, Follow, Canonicalize, JoinSlash, ThroughSymlinks, ClimbsOut;
    DenotedIsHandedOut(fs, ws, names, p);
    ShortIsNotSensitive(JoinSlash(names));
  }

  lemma ShortIsNotSensitive(joined: string)
    requires |joined| < 4
    ensures !IsSensitive(joined)
  {
  }

  // ---------------------------------------------------------------- their text

  predicate IsPlain(name: string)
  {
    name != "" && '/' !in name && '.' !in name
  }

  lemma OneLetterIsPlain()
    ensures IsPlain("d") && IsPlain("e") && IsPlain("f") && IsPlain("m")
  {
  }

  lemma PlainIsNoDots(name: string)
    requires IsPlain(name)
    ensures name != "." && name != ".."
  {
    assert '.' in "." && '.' in "..";
  }

  lemma DotsText(name: string)
    requires IsPlain(name)
    ensures Components(name + "/..") == [Normal(name), ParentDir]
    ensures StaysIn(Components(name + "/..")) && Follow([], Components(name + "/..")) == []
    ensures |JoinSlash([])| < 4
  {
    hide SplitSlash, PartComponents;
    assert name + "/.." == name + "/" + "..";
    SplitName(name, "..");
    SplitName("..", "");
    PartsInOrder([name], [".."]);
    OnePart(name);
    OnePart("..");
    PlainIsNoDots(name);
    UpAndDown(name);
  }

  lemma StandingText(name: string)
    requires IsPlain(name) && |name| < 4
    ensures Components(name + "/.") == [Normal(name), CurDir]
    ensures StaysIn(Components(name + "/.")) && Follow([], Components(name + "/.")) == [name]
    ensures |JoinSlash([name])| < 4
  {
    hide SplitSlash, PartComponents;
    assert name + "/." == name + "/" + ".";
    SplitName(name, ".");
    SplitName(".", "");
    PartsInOrder([name], ["."]);
    OnePart(name);
    OnePart(".");
    PlainIsNoDots(name);
    UpAndDown(name);
  }

  lemma DetourText(name: string, last: string)
    requires IsPlain(name) && IsPlain(last) && |last| < 4
    ensures Components(name + "/../" + last) == [Normal(name), ParentDir, Normal(last)]
    ensures StaysIn(Components(name + "/../" + last)) && Follow([], Components(name + "/../" + last)) == [last]
    ensures |JoinSlash([last])| < 4
  {
    hide SplitSlash, PartComponents;
    assert name + "/../" + last == name + "/" + (".." + "/" + last);
    SplitName(name, ".." + "/" + last);
    SplitName("..", last);
    SplitName(last, "");
    PartsInOrder([name], [".."] + [last]);
    PartsInOrder([".."], [last]);
    OnePart(name);
    OnePart("..");
    OnePart(last);
    PlainIsNoDots(name);
    PlainIsNoDots(last);
    Detour(name, last);
  }

  lemma UpAndDown(name: string)
    ensures StaysIn([Normal(name), ParentDir]) && Follow([], [Normal(name), ParentDir]) == []
    ensures StaysIn([Normal(name), CurDir]) && Follow([], [Normal(name), CurDir]) == [name]
  {
    var up, here := [Normal(name), ParentDir], [Normal(name), CurDir];
    assert up[..1] == [Normal(name)] && here[..1] == [Normal(name)] && [Normal(name)][..0] == [];
    assert up[..0] == [] && here[..0] == [] && up[..2] == up && here[..2] == here;
    assert NameCount([Normal(name)]) == 1 && UpCount([Normal(name)]) == 0;
    assert Follow([], [Normal(name)]) == [name];
  }

  lemma Detour(name: string, last: string)
    ensures
      var comps := [Normal(name), ParentDir, Normal(last)];
      StaysIn(comps) && Follow([], comps) == [last]
  {
    var comps := [Normal(name), ParentDir, Normal(last)];
    UpAndDown(name);
    assert comps[..2] == [Normal(name), ParentDir] && comps[..3] == comps;
    assert forall k :: 0 <= k <= 2 ==> comps[..k] == comps[..2][..k];
    assert NameCount(comps) == NameCount(comps[..2]) + 1 && UpCount(comps) == UpCount(comps[..2]);
    assert comps[..2][..2] == comps[..2];
  }

  // ---------------------------------------------------------------- where the system goes

  lemma StrayDots()
    ensures !LeadsBack(STRAY, ["w"], [Normal("d"), ParentDir], 1)
  {
    hide Trail;
    StraySystem();
    var comps := [Normal("d"), ParentDir];
    assert comps[..1] == [Normal("d")] && comps[..0] == [] && [Normal("d")][..0] == [];
    assert PlaceAt(STRAY, ["w"], comps, 1) == Some([]);
    assert Open([Normal("d")]) == [0] && NameCancelled(comps, 1) == 0;
    StartPlace(STRAY, ["w"], comps);
  }

  lemma StartPlace(fs: FileSystem, ws: Path, comps: seq<Component>)
    ensures PlaceAt(fs, ws, comps, 0) == Some(ws)
  {
    assert comps[..0] == [];
  }

  lemma StraySystem()
    ensures Walk(STRAY, ["w"], [Normal("d"), ParentDir], 1) == Some([])
    ensures Walk(STRAY, ["w"], [Normal("d")], 1) == Some([])
  {
    hide FileSystem.Valid;
    assert ["w"] + ["d"] == ["w", "d"] && [ParentDir][1..] == [];
    assert [Normal("d"), ParentDir][1..] == [ParentDir] && [Normal("d")][1..] == [];
    assert [ParentDir] + [ParentDir] == [ParentDir, ParentDir] && [ParentDir, ParentDir][1..] == [ParentDir];
    assert [ParentDir] + [] == [ParentDir];
    assert Trail(STRAY, [], [], 0) == Some(Arrival([], 0));
    assert Trail(STRAY, [], [ParentDir], 0) == Some(Arrival([], 0));
    assert Trail(STRAY, ["w"], [ParentDir, ParentDir], 0) == Some(Arrival([], 0));
    assert Trail(STRAY, ["w"], [ParentDir], 0) == Some(Arrival([], 0));
  }

  lemma StrayIsWorkspace()
    ensures IsWorkspace(STRAY, ["w"]) && Canonicalize(STRAY, ["w"]) == Some(["w"]) && !IsHardLinked(STRAY, ["w"])
  {
    hide Walk;
    assert ["w"][..0] == [] && ["w", "d"][..1] == ["w"];
    WorkspaceExists(STRAY, ["w"]);
  }

  lemma RefusingPlaces()
    ensures IsWorkspace(REFUSING, ["w"])
    ensures Canonicalize(REFUSING, ["w"]) == Some(["w"])
    ensures Canonicalize(REFUSING, ["w", "f"]) == Some(["w", "f"])
    ensures Canonicalize(REFUSING, ["w", "e"]) == Some(["w", "f"])
    ensures !IsHardLinked(REFUSING, ["w"]) && !IsHardLinked(REFUSING, ["w", "f"])
  {
    hide Trail, FileSystem.Valid;
    RefusingIsValid();
    RealIsCanonical(REFUSING, ["w"]);
    RealIsCanonical(REFUSING, ["w", "f"]);
    assert Names(["w", "e"]) == [Normal("w")] + [Normal("e")] && [] + ["w"] == ["w"];
    TrailName(REFUSING, [], "w", [Normal("e")], 1);
    OneLink();
  }

  lemma RefusingIsValid()
    ensures REFUSING.Valid()
  {
    assert ["w"][..0] == [] && ["w", "f"][..1] == ["w"] && ["w", "r"][..1] == ["w"];
    assert ["w", "d"][..1] == ["w"] && ["w", "e"][..1] == ["w"];
  }

  lemma OneLink()
    ensures Trail(REFUSING, ["w"], [Normal("e")], 1) == Some(Arrival(["w", "f"], 0))
  {
    assert [Normal("e")][1..] == [] && [Normal("f")] + [] == [Normal("f")] && [Normal("f")][1..] == [];
    assert ["w"] + ["e"] == ["w", "e"] && ["w"] + ["f"] == ["w", "f"];
    assert Trail(REFUSING, ["w"], [Normal("f")], 0) == Some(Arrival(["w", "f"], 0));
  }

  lemma RefusingSystem()
    ensures Walk(REFUSING, ["w"], [Normal("f"), ParentDir], 1).None?
    ensures Walk(REFUSING, ["w"], [Normal("f"), CurDir], 1).None?
    ensures Walk(REFUSING, ["w"], [Normal("m"), ParentDir, Normal("f")], 1).None?
    ensures Walk(REFUSING, ["w"], [Normal("d"), ParentDir, Normal("e")], 1).None?
  {
    assert ["w"] + ["f"] == ["w", "f"] && ["w"] + ["m"] == ["w", "m"] && ["w"] + ["d"] == ["w", "d"];
    assert [Normal("f"), ParentDir][1..] == [ParentDir] && [Normal("f"), CurDir][1..] == [CurDir];
    assert Trail(REFUSING, ["w", "f"], [ParentDir], 1).None?;
    assert Trail(REFUSING, ["w", "f"], [CurDir], 1).None?;
    TwoLinks();
  }

  lemma TwoLinks()
    ensures Trail(REFUSING, ["w"], [Normal("d"), ParentDir, Normal("e")], 1).None?
  {
    assert ["w"] + ["d"] == ["w", "d"] && ["w"] + ["r"] == ["w", "r"] && ["w"] + ["e"] == ["w", "e"];
    var rest := [ParentDir, Normal("e")];
    assert [Normal("d"), ParentDir, Normal("e")][1..] == rest && ([Normal("r")] + rest)[1..] == rest;
    assert rest[1..] == [Normal("e")] && ["w", "r"][..1] == ["w"];
    assert Trail(REFUSING, ["w"], [Normal("e")], 0).None?;
    assert Trail(REFUSING, ["w", "r"], rest, 0).None?;
    assert Trail(REFUSING, ["w"], [Normal("r")] + rest, 0).None?;
  }
}
