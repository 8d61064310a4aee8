/** What links do to a write that is accepted, and which writes are. */
module WorkspaceLinks {
  import opened Text
  import opened FileSystem
  import opened Workspace

  // ----- ordinary names, under directories that are not links -----

  /** Every name on the way down to `p` that is taken is a directory. */
  ghost predicate ClearWay(disk: Disk, p: Path) {
    forall k | 0 <= k < |p| :: p[..k] in disk ==> IsDir(disk, p[..k])
  }

  lemma {:induction false} FreeNameIsNotFound(disk: Disk, p: Path, followLast: bool)
    requires WellFormed(disk) && Plain(p) && p !in disk && ClearWay(disk, p)
    ensures var r := Walk(disk, [], p, MAX_SYSTEM_LINKS, followLast);
            r == if Parent(p) in disk then Missing(p) else Failed(NoEntry)
    decreases |p|
  {
    var n := p[|p| - 1];
    assert p == Parent(p) + [n] && p[..|p| - 1] == Parent(p);
    WalkLast(disk, [], Parent(p), n, MAX_SYSTEM_LINKS, followLast);
    if Parent(p) in disk {
      RealPathIsFixed(disk, Parent(p), true);
    } else {
      ClearAbove(disk, p);
      FreeNameIsNotFound(disk, Parent(p), true);
    }
  }

  lemma ClearAbove(disk: Disk, p: Path)
    requires ClearWay(disk, p)
    ensures ClearWay(disk, Parent(p))
    ensures p != [] && Parent(p) in disk ==> IsDir(disk, Parent(p))
  {
    if p != [] {
      assert p[..|p| - 1] == Parent(p);
      forall k | 0 <= k < |Parent(p)| ensures Parent(p)[..k] == p[..k] {
      }
    }
  }

  lemma {:induction false} MissingDirectoriesAreMade(disk: Disk, p: Path)
    requires WellFormed(disk) && Plain(p) && ClearWay(disk, p)
    requires p in disk ==> IsDir(disk, p)
    ensures MakeDirectories(disk, p).Ok? && IsDir(MakeDirectories(disk, p).value, p)
    ensures WellFormed(MakeDirectories(disk, p).value)
    ensures DirectoriesAdded(disk, MakeDirectories(disk, p).value, [])
    ensures forall e | e in MakeDirectories(disk, p).value && e !in disk :: |e| <= |p|
    decreases |p|
  {
    if p in disk {
      RealPathIsFixed(disk, p, true);
      RealPathIsFixed(disk, p, false);
    } else {
      ClearAbove(disk, p);
      FreeNameIsNotFound(disk, p, false);
      MissingDirectoriesAreMade(disk, Parent(p));
      var grown := MakeDirectories(disk, Parent(p)).value;
      assert p !in grown;
      LastDirectoryIsMade(grown, p);
      if Parent(p) in disk {
        RealPathIsFixed(disk, Parent(p), true);
        RealPathIsFixed(disk, Parent(p), false);
        assert grown == disk;
      }
    }
  }

  lemma LastDirectoryIsMade(disk: Disk, p: Path)
    requires WellFormed(disk) && Plain(p) && p != [] && IsDir(disk, Parent(p)) && p !in disk
    ensures EnsureDirectory(disk, p) == Ok(disk[p := Dir]) && WellFormed(disk[p := Dir])
  {
    var n := p[|p| - 1];
    assert p == Parent(p) + [n] && Parent(Parent(p) + [n]) == Parent(p);
    RealPathIsFixed(disk, Parent(p), true);
    WalkLast(disk, [], Parent(p), n, MAX_SYSTEM_LINKS, false);
    AddDirectory(disk, Parent(p), Parent(p), n);
  }

  lemma {:induction false} ClearAncestor(disk: Disk, root: Path, target: Path)
    requires WellFormed(disk) && IsDir(disk, root) && Plain(root) && Plain(target)
    requires root <= target && ClearWay(disk, target) && (target in disk ==> IsDir(disk, target))
    ensures Ancestor(disk, root, target).Ok? && root <= Ancestor(disk, root, target).value
    ensures Plain(Ancestor(disk, root, target).value)
    decreases |target|
  {
    if target in disk {
      RealPathIsFixed(disk, target, true);
    } else {
      FreeNameIsNotFound(disk, target, true);
      assert root != target && |root| < |target|;
      assert root <= Parent(target);
      InsideIsPrefix(root, Parent(target));
      ClearAbove(disk, target);
      ClearAncestor(disk, root, Parent(target));
    }
  }

  /**
   * A request that names a file or a free name, under directories that are there or free and none of
   * them links, is accepted and written under exactly that name, parents included.
   */
  lemma OrdinaryWriteIsMade(disk: Disk, rootPath: Path, root: Path, names: Path, bytes: string, append: bool)
    requires Rooted(disk, rootPath, root) && IsDir(disk, root)
    requires Plain(names) && names != [] && Wanted(Join(names, "/")) == Ok(Join(names, "/"))
    requires ClearWay(disk, root + names) && (root + names in disk ==> disk[root + names].File?)
    ensures ResolvePath(disk, rootPath, Join(names, "/"), true) == Ok(root + names)
    ensures MakeDirectories(disk, Parent(root + names)).Ok?
    ensures var w := WriteFile(MakeDirectories(disk, Parent(root + names)).value, root + names, bytes, append);
            w.Ok? && w.value.at == root + names
  {
    var target := root + names;
    RealPathsAreReal(disk, rootPath);
    PlainTextNames(root, names);
    InsideIsPrefix(root, target);
    assert root < target;
    ClearAbove(disk, target);
    OrdinaryNameResolves(disk, root, target);
    OrdinaryNameIsWritten(disk, target, bytes, append);
  }

  lemma OrdinaryNameIsWritten(disk: Disk, target: Path, bytes: string, append: bool)
    requires WellFormed(disk) && Plain(target) && target != []
    requires ClearWay(disk, target) && (target in disk ==> disk[target].File?)
    ensures MakeDirectories(disk, Parent(target)).Ok?
    ensures var w := WriteFile(MakeDirectories(disk, Parent(target)).value, target, bytes, append); w.Ok? && w.value.at == target
  {
    ClearAbove(disk, target);
    MissingDirectoriesAreMade(disk, Parent(target));
    var grown := MakeDirectories(disk, Parent(target)).value;
    assert target == Parent(target) + [target[|target| - 1]];
    RealPathIsFixed(grown, Parent(target), true);
    WalkLast(grown, [], Parent(target), target[|target| - 1], MAX_SYSTEM_LINKS, true);
  }

  lemma OrdinaryNameResolves(disk: Disk, root: Path, target: Path)
    requires WellFormed(disk) && IsDir(disk, root) && Plain(target) && root < target
    requires ClearWay(disk, target) && (target in disk ==> disk[target].File?)
    ensures ResolveForWrite(disk, root, target) == Ok(target)
  {
    ClearAbove(disk, target);
    assert root <= Parent(target);
    ClearAncestor(disk, root, Parent(target));
    InsideIsPrefix(root, Ancestor(disk, root, Parent(target)).value);
    if target in disk {
      RealPathIsFixed(disk, target, false);
    } else {
      FreeNameIsNotFound(disk, target, false);
    }
    NoLinkSettles(disk, target, MAX_LINK_HOPS);
  }

  lemma NoLinkSettles(disk: Disk, target: Path, hops: nat)
    requires LinkAt(disk, target).Refused?
    ensures Destination(disk, target, hops) == Ok(target)
  {
  }

  // ----- names that are links -----

  lemma {:induction false} NormaliseNames(base: Path, parts: seq<string>)
    requires ".." !in parts && forall part | part in parts :: '/' !in part
    ensures Normalise(base, parts) == base + Names(parts)
    decreases |parts|
  {
    if parts == [] {
      assert base + [] == base;
    } else if parts[0] == "" || parts[0] == "." {
      NormaliseNames(base, parts[1..]);
    } else {
      NormaliseNames(base + [parts[0]], parts[1..]);
      assert base + Names(parts) == base + [parts[0]] + Names(parts[1..]);
    }
  }

  predicate NoName(part: string) {
    part == "" || part == "." || part == ".."
  }

  /**
   * A link whose text, read against the path that holds it, means what the system takes it to mean: any `..`
   * in it comes before every name, and is taken from a real directory.
   */
  predicate ReadsAlike(disk: Disk, p: Path, text: string, climb: nat) {
    var parts := Split(text, '/');
    && climb <= |parts| && ".." !in parts[climb..]
    && (forall part | part in parts[..climb] :: NoName(part))
    && (climb > 0 ==> IsAbsolute(text) || (IsDir(disk, Parent(p)) && Plain(Parent(p))))
  }

  /** The parts that go up, taken one by one or as text. */
  lemma {:induction false} ClimbsAlike(disk: Disk, base: Path, ups: seq<string>, downs: seq<string>, links: nat)
    requires WellFormed(disk) && IsDir(disk, base) && Plain(base)
    requires forall part | part in ups :: NoName(part) && '/' !in part
    requires forall part | part in downs :: '/' !in part
    ensures var c := Normalise(base, ups);
      && IsDir(disk, c) && Plain(c) && Normalise(base, ups + downs) == Normalise(c, downs)
      && Walk(disk, base, ups + downs, links, true) == Walk(disk, c, downs, links, true)
    decreases |ups|
  {
    if ups == [] {
      assert ups + downs == downs;
    } else {
      assert (ups + downs)[0] == ups[0] && (ups + downs)[1..] == ups[1..] + downs;
      assert ups[0] in ups && forall part | part in ups[1..] :: part in ups;
      if ups[0] == ".." {
        assert Placed(disk, base);
        ClimbsAlike(disk, Parent(base), ups[1..], downs, links);
      } else {
        ClimbsAlike(disk, base, ups[1..], downs, links);
      }
    }
  }

  /** From a real directory, parts without `..` lead where the path they spell does. */
  lemma DownAsTheSystem(disk: Disk, c: Path, downs: seq<string>, links: nat)
    requires WellFormed(disk) && IsDir(disk, c) && Plain(c) && links <= MAX_SYSTEM_LINKS
    requires ".." !in downs && forall part | part in downs :: '/' !in part
    requires !Walk(disk, c, downs, links, true).Failed?
    ensures Follow(disk, Normalise(c, downs)) == Walk(disk, c, downs, links, true)
  {
    NormaliseNames(c, downs);
    assert [] + downs == downs && [] + Names(downs) == Names(downs) && [] + c == c;
    OnlyNamesMatter(disk, c, [], downs, links);
    RealPathIsFree(disk, [], c, MAX_SYSTEM_LINKS);
    WalkResumes(disk, [], c, Names(downs), MAX_SYSTEM_LINKS);
    BiggerBudget(disk, c, Names(downs), links, MAX_SYSTEM_LINKS);
  }

  /** A link read alike, read from the path as text, leads where the system follows it, if it follows it anywhere. */
  lemma HopAsTheSystem(disk: Disk, p: Path, text: string, climb: nat)
    requires WellFormed(disk) && Plain(p) && p != []
    requires LinkAt(disk, p) == Ok(text) && ReadsAlike(disk, p, text, climb)
    requires !Follow(disk, p).Failed?
    ensures Follow(disk, ResolveText(Parent(p), text)) == Follow(disk, p)
  {
    var parts := Split(text, '/');
    var d, left := LinkIsFollowed(disk, p, text);
    if climb > 0 || IsAbsolute(text) {
      if !IsAbsolute(text) {
        assert [] + Parent(p) == Parent(p);
        RealPathIsFree(disk, [], Parent(p), MAX_SYSTEM_LINKS);
      }
      FromARealPlace(disk, if IsAbsolute(text) then [] else Parent(p), parts, climb, left - 1);
    } else {
      assert parts[0..] == parts;
      DownFromItsHolder(disk, Parent(p), d, parts, left);
    }
  }

  /** Parts that first go up, and then only down. */
  lemma FromARealPlace(disk: Disk, base: Path, parts: seq<string>, climb: nat, links: nat)
    requires WellFormed(disk) && IsDir(disk, base) && Plain(base) && links <= MAX_SYSTEM_LINKS
    requires climb <= |parts| && ".." !in parts[climb..] && forall part | part in parts[..climb] :: NoName(part)
    requires forall part | part in parts :: '/' !in part
    requires !Walk(disk, base, parts, links, true).Failed?
    ensures Follow(disk, Normalise(base, parts)) == Walk(disk, base, parts, links, true)
  {
    var ups, downs := parts[..climb], parts[climb..];
    assert parts == ups + downs;
    ClimbsAlike(disk, base, ups, downs, links);
    DownAsTheSystem(disk, Normalise(base, ups), downs, links);
  }

  /** Parts that only go down, from wherever a path leads. */
  lemma DownFromItsHolder(disk: Disk, holder: Path, d: Path, parts: seq<string>, left: nat)
    requires WellFormed(disk) && Plain(holder) && Follow(disk, holder) == Found(d)
    requires left == LinksLeft(disk, [], holder, MAX_SYSTEM_LINKS) && 1 <= left <= MAX_SYSTEM_LINKS
    requires ".." !in parts && forall part | part in parts :: '/' !in part
    requires !Walk(disk, d, parts, left - 1, true).Failed?
    ensures Follow(disk, Normalise(holder, parts)) == Walk(disk, d, parts, left - 1, true)
  {
    assert [] + parts == parts && [] + Names(parts) == Names(parts);
    OnlyNamesMatter(disk, d, [], parts, left - 1);
    NormaliseNames(holder, parts);
    WalkResumes(disk, [], holder, Names(parts), MAX_SYSTEM_LINKS);
    BiggerBudget(disk, d, Names(parts), left - 1, left);
  }

  /** Where the system takes a link from, and the budget it has left there. */
  lemma LinkIsFollowed(disk: Disk, p: Path, text: string) returns (d: Path, left: nat)
    requires WellFormed(disk) && Plain(p) && p != []
    requires LinkAt(disk, p) == Ok(text) && !Follow(disk, p).Failed?
    ensures Follow(disk, Parent(p)) == Found(d) && left == LinksLeft(disk, [], Parent(p), MAX_SYSTEM_LINKS)
    ensures 1 <= left <= MAX_SYSTEM_LINKS
    ensures Follow(disk, p) == Walk(disk, if IsAbsolute(text) then [] else d, Split(text, '/'), left - 1, true)
  {
    var n := p[|p| - 1];
    assert Parent(p) + [n] == p;
    d := LinkIsHeld(disk, p, text);
    left := LinksLeft(disk, [], Parent(p), MAX_SYSTEM_LINKS);
    BudgetLeft(disk, [], Parent(p), MAX_SYSTEM_LINKS);
    WalkResumes(disk, [], Parent(p), [n], MAX_SYSTEM_LINKS);
    NameIsFollowed(disk, d, n, text, left);
  }

  /** A link is an entry of the directory that what is above it leads to. */
  lemma LinkIsHeld(disk: Disk, p: Path, text: string) returns (d: Path)
    requires WellFormed(disk) && Plain(p) && p != [] && LinkAt(disk, p) == Ok(text)
    ensures Follow(disk, Parent(p)) == Found(d)
    ensures d + [p[|p| - 1]] in disk && disk[d + [p[|p| - 1]]] == Link(text)
  {
    assert Parent(p) + [p[|p| - 1]] == p;
    WalkLast(disk, [], Parent(p), p[|p| - 1], MAX_SYSTEM_LINKS, false);
    d := Follow(disk, Parent(p)).at;
  }

  lemma NameIsFollowed(disk: Disk, d: Path, n: string, text: string, left: nat)
    requires WellFormed(disk) && PlainName(n) && d + [n] in disk && disk[d + [n]] == Link(text)
    ensures Walk(disk, d, [n], left, true) ==
      if left == 0 then Failed(TooManyLinks)
      else Walk(disk, if IsAbsolute(text) then [] else d, Split(text, '/'), left - 1, true)
  {
    assert Placed(disk, d + [n]) && Parent(d + [n]) == d;
    assert [n][1..] == [] && Split(text, '/') + [] == Split(text, '/');
  }

  lemma BudgetLeft(disk: Disk, at: Path, a: seq<string>, links: nat)
    requires Walk(disk, at, a, links, true).Found?
    ensures LinksLeft(disk, at, a, links) <= links
    decreases links, |a|
  {
  }

  /** Every link a write would follow from `current` reads alike. */
  ghost predicate AllReadAlike(disk: Disk, current: Path, hops: nat)
    decreases hops, current
  {
    LinkAt(disk, current).Ok? ==>
      var text := LinkAt(disk, current).value;
      && (exists climb: nat :: ReadsAlike(disk, current, text, climb))
      && (hops > 0 ==> AllReadAlike(disk, ResolveText(Parent(current), text), hops - 1))
  }

  lemma {:induction false} ChainAsTheSystem(disk: Disk, current: Path, hops: nat)
    requires WellFormed(disk) && Plain(current)
    requires AllReadAlike(disk, current, hops) && Destination(disk, current, hops).Ok?
    ensures Follow(disk, current).Failed? || Follow(disk, Destination(disk, current, hops).value) == Follow(disk, current)
    decreases hops
  {
    if LinkAt(disk, current).Ok? && !Follow(disk, current).Failed? {
      var text := LinkAt(disk, current).value;
      var climb: nat :| ReadsAlike(disk, current, text, climb);
      assert current != [];
      OneHop(disk, current, hops);
      HopAsTheSystem(disk, current, text, climb);
      ChainAsTheSystem(disk, ResolveText(Parent(current), text), hops - 1);
    }
  }

  /**
   * Where every link on the way reads alike, an accepted write goes exactly where the system's own
   * following of the requested name would have put it, if that would have put it anywhere.
   */
  lemma LandsWhereTheSystemWould(disk: Disk, root: Path, target: Path, full: Path)
    requires WellFormed(disk) && Plain(root) && Plain(target)
    requires AllReadAlike(disk, target, MAX_LINK_HOPS) && Landing(disk, root, target) == Ok(full)
    ensures Follow(disk, target).Failed? || Follow(disk, full) == Follow(disk, target)
  {
    ChainAsTheSystem(disk, target, MAX_LINK_HOPS);
    DestinationIsNoLink(disk, target, MAX_LINK_HOPS);
    var landing := Destination(disk, target, MAX_LINK_HOPS).value;
    if landing == [] {
      RealPathIsFixed(disk, [], true);
    } else if landing != target {
      SameStep(disk, landing, full);
    }
  }

  /** A name that is no link is the same thing in a directory and in what the directory leads to. */
  lemma SameStep(disk: Disk, landing: Path, full: Path)
    requires WellFormed(disk) && Plain(landing) && landing != [] && LinkAt(disk, landing).Refused?
    requires Follow(disk, Parent(landing)).Found? && full == Follow(disk, Parent(landing)).at + BaseName(landing)
    ensures Follow(disk, full) == Follow(disk, landing)
  {
    var n, holder := landing[|landing| - 1], Follow(disk, Parent(landing)).at;
    RealPathsAreReal(disk, Parent(landing));
    assert Parent(landing) + [n] == landing && holder + [n] == full;
    NoLinkToFollow(disk, landing);
    WalkLast(disk, [], Parent(landing), n, MAX_SYSTEM_LINKS, true);
    WalkLast(disk, [], holder, n, MAX_SYSTEM_LINKS, true);
  }

  /**
   * Exactly when what was written is what a read of the same request finds: when, before the write, the system
   * follows the name requested and the path resolved to the same place.
   */
  lemma WrittenIsReadBackWhen(disk: Disk, rootPath: Path, root: Path, requested: string, grown: Disk, bytes: string, append: bool)
    requires Rooted(disk, rootPath, root) && ResolvePath(disk, rootPath, requested, true).Ok?
    requires MakeDirectories(disk, Parent(ResolvePath(disk, rootPath, requested, true).value)) == Ok(grown)
    requires WriteFile(grown, ResolvePath(disk, rootPath, requested, true).value, bytes, append).Ok?
    ensures var target, full := ResolveText(root, Wanted(requested).value), ResolvePath(disk, rootPath, requested, true).value;
            var w := WriteFile(grown, full, bytes, append).value;
            ResolvePath(w.disk, rootPath, requested, false) == Ok(w.at) <==> Follow(disk, target) == Follow(disk, full)
  {
    var target, full := ResolveText(root, Wanted(requested).value), ResolvePath(disk, rootPath, requested, true).value;
    RealPathsAreReal(disk, rootPath);
    if LinkAt(disk, target).Refused? {
      NoLinkSettles(disk, target, MAX_LINK_HOPS);
      WrittenIsReadBack(disk, rootPath, root, requested, grown, bytes, append);
    } else {
      LinkedWriteIsReadBackWhen(disk, rootPath, root, requested, grown, bytes, append);
    }
  }

  lemma LinkedWriteIsReadBackWhen(disk: Disk, rootPath: Path, root: Path, requested: string, grown: Disk, bytes: string, append: bool)
    requires Rooted(disk, rootPath, root) && ResolvePath(disk, rootPath, requested, true).Ok?
    requires LinkAt(disk, ResolveText(root, Wanted(requested).value)).Ok?
    requires MakeDirectories(disk, Parent(ResolvePath(disk, rootPath, requested, true).value)) == Ok(grown)
    requires WriteFile(grown, ResolvePath(disk, rootPath, requested, true).value, bytes, append).Ok?
    ensures var target, full := ResolveText(root, Wanted(requested).value), ResolvePath(disk, rootPath, requested, true).value;
            var w := WriteFile(grown, full, bytes, append).value;
            ResolvePath(w.disk, rootPath, requested, false) == Ok(w.at) <==> Follow(disk, target) == Follow(disk, full)
  {
    RealPathsAreReal(disk, rootPath);
    var target := ResolveText(root, Wanted(requested).value);
    var full := ResolvePath(disk, rootPath, requested, true).value;
    var w := WriteFile(grown, full, bytes, append).value;
    WriteStaysInside(disk, rootPath, root, requested, grown);
    LinkedBytesAreFound(disk, root, target, full, grown, w, bytes, append);
    WalkGrows(disk, w.disk, [], rootPath, MAX_SYSTEM_LINKS, true);
    ReadGoesTo(w.disk, rootPath, root, requested, w.at);
  }

  lemma LinkedBytesAreFound(disk: Disk, root: Path, target: Path, full: Path, grown: Disk, w: Written, bytes: string, append: bool)
    requires WellFormed(disk) && WellFormed(grown) && Plain(root) && Plain(target) && LinkAt(disk, target).Ok?
    requires Landing(disk, root, target) == Ok(full) && MakeDirectories(disk, Parent(full)) == Ok(grown)
    requires WriteFile(grown, full, bytes, append) == Ok(w) && Landed(disk, root, w, bytes, append)
    ensures KeepsShape(disk, w.disk) && Plain(w.at)
    ensures Follow(w.disk, target) == Found(w.at) <==> Follow(disk, target) == Follow(disk, full)
  {
    assert full != [] by { RealPathIsFixed(grown, [], true); }
    NothingMadeForALink(disk, root, target, full, grown);
    assert Placed(w.disk, w.at);
    WalkFinds(disk, [], full, MAX_SYSTEM_LINKS, true);
    FoundWhenAlike(disk, target, full, w, bytes, append);
  }

  /** A read goes to a place inside the root exactly when the name requested is followed there. */
  lemma ReadGoesTo(disk: Disk, rootPath: Path, root: Path, requested: string, at: Path)
    requires Wanted(requested).Ok? && RealPath(disk, rootPath) == Ok(root) && Plain(root) && Plain(at) && root <= at
    requires Inside(root, ResolveText(root, Wanted(requested).value))
    ensures ResolvePath(disk, rootPath, requested, false) == Ok(at) <==>
      Follow(disk, ResolveText(root, Wanted(requested).value)) == Found(at)
  {
    InsideIsPrefix(root, at);
  }

  /** After a write to one path, another leads to the bytes exactly when both led to the same place before. */
  lemma FoundWhenAlike(disk: Disk, target: Path, full: Path, w: Written, bytes: string, append: bool)
    requires WellFormed(disk) && WriteFile(disk, full, bytes, append) == Ok(w)
    requires Follow(disk, full).Missing? ==> w.at !in disk
    ensures Follow(w.disk, target) == Found(w.at) <==> Follow(disk, target) == Follow(disk, full)
  {
    if Follow(disk, full).Found? {
      if Follow(disk, target).Found? {
        WalkGrows(disk, w.disk, [], target, MAX_SYSTEM_LINKS, true);
      } else if Follow(w.disk, target).Found? {
        WalkGrows(w.disk, disk, [], target, MAX_SYSTEM_LINKS, true);
      }
    } else {
      if Follow(disk, target) == Missing(w.at) {
        FreeNameIsFilled(disk, [], target, MAX_SYSTEM_LINKS, w.at, bytes);
      }
      if Follow(w.disk, target) == Found(w.at) {
        FilledNameWasFree(disk, [], target, MAX_SYSTEM_LINKS, w.at, bytes);
      }
    }
  }

  /** So a write through links that read alike is read back exactly when the system follows the name anywhere. */
  lemma LinkedWriteIsReadBack(disk: Disk, rootPath: Path, root: Path, requested: string, grown: Disk, bytes: string, append: bool)
    requires Rooted(disk, rootPath, root) && ResolvePath(disk, rootPath, requested, true).Ok?
    requires AllReadAlike(disk, ResolveText(root, Wanted(requested).value), MAX_LINK_HOPS)
    requires LinkAt(disk, ResolveText(root, Wanted(requested).value)).Ok?
    requires MakeDirectories(disk, Parent(ResolvePath(disk, rootPath, requested, true).value)) == Ok(grown)
    requires WriteFile(grown, ResolvePath(disk, rootPath, requested, true).value, bytes, append).Ok?
    ensures var w := WriteFile(grown, ResolvePath(disk, rootPath, requested, true).value, bytes, append).value;
            ResolvePath(w.disk, rootPath, requested, false) == Ok(w.at)
            <==> !Follow(disk, ResolveText(root, Wanted(requested).value)).Failed?
  {
    RealPathsAreReal(disk, rootPath);
    var target := ResolveText(root, Wanted(requested).value);
    var full := ResolvePath(disk, rootPath, requested, true).value;
    assert full != [] by {
      WriteStaysInside(disk, rootPath, root, requested, grown);
      RealPathIsFixed(grown, [], true);
    }
    NothingMadeForALink(disk, root, target, full, grown);
    LinkedWriteIsReadBackWhen(disk, rootPath, root, requested, grown, bytes, append);
    LandsWhereTheSystemWould(disk, root, target, full);
  }

  lemma NothingMadeForALink(disk: Disk, root: Path, target: Path, full: Path, grown: Disk)
    requires WellFormed(disk) && Plain(root) && Plain(target) && LinkAt(disk, target).Ok?
    requires Landing(disk, root, target) == Ok(full) && full != []
    requires MakeDirectories(disk, Parent(full)) == Ok(grown)
    ensures grown == disk
  {
    DestinationIsNoLink(disk, target, MAX_LINK_HOPS);
    var known := LinkedTargetAims(disk, root, target, full);
    DirectoriesStayBelow(disk, known, [], grown);
  }

  // ----- a link at the last name, read from the path as text -----

  /** `/w` with `s -> d/e`, in `/w/d/e` a link `l -> ../x`, and no `x` in `/w/d`. */
  ghost predicate Crossed(disk: Disk) {
    && IsDir(disk, []) && IsDir(disk, ["w"]) && IsDir(disk, ["w", "d"]) && IsDir(disk, ["w", "d", "e"])
    && ["w", "s"] in disk && disk[["w", "s"]] == Link(Join(["d", "e"], "/"))
    && ["w", "d", "e", "l"] in disk && disk[["w", "d", "e", "l"]] == Link(Join(["..", "x"], "/"))
    && ["w", "d", "x"] !in disk
  }

  lemma CrossedPaths()
    ensures [] + ["w"] == ["w"] && ["w"] + ["s"] == ["w", "s"] && ["w"] + ["d"] == ["w", "d"]
    ensures ["w", "d"] + ["e"] == ["w", "d", "e"] && ["w", "d", "e"] + ["l"] == ["w", "d", "e", "l"]
    ensures ["w", "d"] + ["x"] == ["w", "d", "x"] && ["w"] + ["x"] == ["w", "x"]
    ensures ["w", "s"] + ["l"] == ["w", "s", "l"]
  {
  }

  /** From the directory `s` is in, whatever follows `s` is looked for in `/w/d/e`. */
  lemma ThroughS(disk: Disk, more: seq<string>, k: nat, f: bool)
    requires Crossed(disk) && k >= 1 && (more == [] ==> f)
    ensures Walk(disk, ["w"], ["s"] + more, k, f) == Walk(disk, ["w", "d", "e"], more, k - 1, f)
  {
    CrossedPaths();
    JoinSplits(["d", "e"], '/');
    assert Join(["d", "e"], "/")[0] == 'd';
    var rest := ["d", "e"] + more;
    assert (["s"] + more)[1..] == more && rest[1..] == ["e"] + more && (["e"] + more)[1..] == more;
    assert Walk(disk, ["w"], ["s"] + more, k, f) == Walk(disk, ["w"], rest, k - 1, f);
    assert Walk(disk, ["w"], rest, k - 1, f) == Walk(disk, ["w", "d"], ["e"] + more, k - 1, f);
  }

  /** At `/w/d/e` the system reads `l` as `/w/d/x`. */
  lemma ThroughL(disk: Disk, k: nat)
    requires Crossed(disk) && k >= 1
    ensures Walk(disk, ["w", "d", "e"], ["l"], k, true) == Missing(["w", "d", "x"])
  {
    CrossedPaths();
    JoinSplits(["..", "x"], '/');
    assert Join(["..", "x"], "/")[0] == '.';
    assert ["..", "x"] + ["l"][1..] == ["..", "x"] && ["..", "x"][1..] == ["x"];
    assert Parent(["w", "d", "e"]) == ["w", "d"];
    assert Walk(disk, ["w", "d", "e"], ["l"], k, true) == Walk(disk, ["w", "d", "e"], ["..", "x"], k - 1, true);
    assert Walk(disk, ["w", "d", "e"], ["..", "x"], k - 1, true) == Walk(disk, ["w", "d"], ["x"], k - 1, true);
    assert ["w", "d"] + ["x"] == ["w", "d", "x"];
  }

  lemma CrossedWalks(disk: Disk, k: nat, f: bool)
    requires Crossed(disk) && k >= 2
    ensures Walk(disk, [], ["w"], k, f) == Found(["w"])
    ensures Walk(disk, [], ["w", "s"], k, true) == Found(["w", "d", "e"])
    ensures Walk(disk, [], ["w", "s", "l"], k, false) == Found(["w", "d", "e", "l"])
    ensures Walk(disk, [], ["w", "s", "l"], k, true) == Missing(["w", "d", "x"])
  {
    CrossedPaths();
    assert ["w"][1..] == [] && ["w", "s"][1..] == ["s"] + [] && ["w", "s", "l"][1..] == ["s"] + ["l"];
    ThroughS(disk, [], k, true);
    ThroughS(disk, ["l"], k, false);
    ThroughS(disk, ["l"], k, true);
    ThroughL(disk, k - 1);
    assert ["l"][1..] == [];
  }

  /**
   * `writeDestination` reads a link against its directory as the request spells it, the system against
   * the real one. Asked for `s/l`, a write goes to `/w/x`, and a read of `s/l` afterwards finds nothing:
   * the condition of `WrittenIsReadBack` cannot be dropped, although the write still stays inside.
   */
  lemma LinkedWriteIsNotReadBack(disk: Disk, after: Disk, bytes: string)
    requires Crossed(disk) && ["w", "x"] !in disk && after == disk[["w", "x"] := File(bytes)]
    ensures ResolvePath(disk, ["w"], "s/l", true) == Ok(["w", "x"])
    ensures WriteFile(disk, ["w", "x"], bytes, false) == Ok(Written(after, ["w", "x"]))
    ensures ResolvePath(after, ["w"], "s/l", false) == Refused(NoSuchFile)
  {
    CrossedResolves(disk);
    CrossedIsFree(disk, true);
    FreeNameIsWritten(disk, ["w", "x"], bytes);
    StillCrossed(disk, ["w", "x"], File(bytes));
    CrossedIsNotFound(after);
  }

  lemma FreeNameIsWritten(disk: Disk, p: Path, bytes: string)
    requires Follow(disk, p) == Missing(p)
    ensures WriteFile(disk, p, bytes, false) == Ok(Written(disk[p := File(bytes)], p))
  {
  }

  lemma StillCrossed(disk: Disk, p: Path, node: Node)
    requires Crossed(disk) && p !in disk && p != ["w", "d", "x"]
    ensures Crossed(disk[p := node])
  {
  }

  /** The steps of resolving for a write, each with what it comes to. */
  lemma ResolvesSo(disk: Disk, rootPath: Path, requested: string, root: Path, target: Path, anchor: Path, full: Path)
    requires Wanted(requested).Ok? && RealPath(disk, rootPath) == Ok(root) && ResolveText(root, Wanted(requested).value) == target
    requires Inside(root, target) && RealPath(disk, Parent(target)) == Ok(anchor) && Inside(root, anchor)
    requires Landing(disk, root, target) == Ok(full)
    ensures ResolvePath(disk, rootPath, requested, true) == Ok(full)
  {
  }

  lemma CrossedResolves(disk: Disk)
    requires Crossed(disk) && ["w", "x"] !in disk
    ensures ResolvePath(disk, ["w"], "s/l", true) == Ok(["w", "x"])
  {
    CrossedWalks(disk, MAX_SYSTEM_LINKS, true);
    CrossedRequest();
    InsideIsPrefix(["w"], ["w", "s", "l"]);
    InsideIsPrefix(["w"], ["w", "d", "e"]);
    CrossedLanding(disk);
    assert Parent(["w", "s", "l"]) == ["w", "s"];
    ResolvesSo(disk, ["w"], "s/l", ["w"], ["w", "s", "l"], ["w", "d", "e"], ["w", "x"]);
  }

  lemma CrossedIsNotFound(disk: Disk)
    requires Crossed(disk)
    ensures ResolvePath(disk, ["w"], "s/l", false) == Refused(NoSuchFile)
  {
    CrossedWalks(disk, MAX_SYSTEM_LINKS, false);
    CrossedRequest();
    InsideIsPrefix(["w"], ["w", "s", "l"]);
  }

  lemma CrossedRequest()
    ensures Wanted("s/l") == Ok("s/l") && ResolveText(["w"], "s/l") == ["w", "s", "l"]
  {
    CrossedIsWanted("s/l");
    assert Join(["s", "l"], "/") == "s/l";
    PlainTextNames(["w"], ["s", "l"]);
  }

  lemma CrossedIsWanted(text: string)
    requires |text| == 3 && text[0] == 's' && text[1] == '/' && text[2] == 'l'
    ensures Wanted(text) == Ok(text)
  {
    CrossedParts(text);
    TrimNothing(text);
    assert ".." !in ["s", "l"];
  }

  lemma CrossedParts(text: string)
    requires |text| == 3 && text[0] == 's' && text[1] == '/' && text[2] == 'l'
    ensures SplitAny(text, {'/', '\\'}) == ["s", "l"]
  {
    assert Join(["s", "l"], "/") == text;
    JoinSplits(["s", "l"], '/');
    AbsentSeparators(text, {'/'}, {'/', '\\'});
  }

  /** As text, the link of `s/l` leads to `/w/x`. */
  lemma CrossedText()
    ensures ResolveText(["w", "s"], Join(["..", "x"], "/")) == ["w", "x"]
  {
    JoinSplits(["..", "x"], '/');
    assert Join(["..", "x"], "/")[0] == '.';
    assert Parent(["w", "s"]) == ["w"] && ["..", "x"][1..] == ["x"] && ["x"][1..] == [];
    assert Normalise(["w", "s"], ["..", "x"]) == Normalise(["w"], ["x"]) == ["w", "x"];
  }

  lemma CrossedIsFree(disk: Disk, followLast: bool)
    requires Crossed(disk) && ["w", "x"] !in disk
    ensures Walk(disk, [], ["w", "x"], MAX_SYSTEM_LINKS, followLast) == Missing(["w", "x"])
  {
    CrossedPaths();
    CrossedWalks(disk, MAX_SYSTEM_LINKS, followLast);
    WalkLast(disk, [], ["w"], "x", MAX_SYSTEM_LINKS, followLast);
  }

  lemma CrossedLanding(disk: Disk)
    requires Crossed(disk) && ["w", "x"] !in disk
    ensures Landing(disk, ["w"], ["w", "s", "l"]) == Ok(["w", "x"])
    ensures Follow(disk, ["w", "x"]) == Missing(["w", "x"])
  {
    CrossedWalks(disk, MAX_SYSTEM_LINKS, false);
    CrossedIsFree(disk, false);
    CrossedIsFree(disk, true);
    CrossedText();
    assert Parent(["w", "s", "l"]) == ["w", "s"] && Parent(["w", "x"]) == ["w"];
    SettlesInOne(disk, ["w", "s", "l"], Join(["..", "x"], "/"), ["w", "x"], MAX_LINK_HOPS);
    InsideIsPrefix(["w"], ["w"]);
    InsideIsPrefix(["w"], ["w", "x"]);
  }

  lemma SettlesInOne(disk: Disk, link: Path, text: string, end: Path, hops: nat)
    requires LinkAt(disk, link) == Ok(text) && ResolveText(Parent(link), text) == end && LinkAt(disk, end).Refused?
    requires hops > 0
    ensures Destination(disk, link, hops) == Ok(end)
  {
  }

  // ----- a link without `..` that the system does not follow -----

  /** `/w` with a link `l -> f/` and no `f`. */
  ghost predicate Slashed(disk: Disk) {
    && WellFormed(disk) && IsDir(disk, ["w"]) && ["w", "f"] !in disk
    && ["w", "l"] in disk && disk[["w", "l"]] == Link(Join(["f", ""], "/"))
  }

  /** A slash at its end asks for a directory of the system, and for nothing of the text: `l` is written at `f` and then not found. */
  lemma SlashedWriteIsNotReadBack(disk: Disk, after: Disk, bytes: string)
    requires Slashed(disk) && after == disk[["w", "f"] := File(bytes)]
    ensures ResolvePath(disk, ["w"], "l", true) == Ok(["w", "f"])
    ensures WriteFile(disk, ["w", "f"], bytes, false) == Ok(Written(after, ["w", "f"]))
    ensures ResolvePath(after, ["w"], "l", false) == Refused(NoSuchFile)
  {
    SlashedResolves(disk);
    SlashedFree(disk, true);
    FreeNameIsWritten(disk, ["w", "f"], bytes);
    SlashedIsNotFound(disk, after, bytes);
  }

  lemma SlashedIsNotFound(disk: Disk, after: Disk, bytes: string)
    requires Slashed(disk) && after == disk[["w", "f"] := File(bytes)]
    ensures ResolvePath(after, ["w"], "l", false) == Refused(NoSuchFile)
  {
    SlashedRequest();
    SlashedIsNotFollowed(disk, after, bytes);
    InsideIsPrefix(["w"], ["w", "l"]);
  }

  lemma SlashedRequest()
    ensures Wanted("l") == Ok("l") && ResolveText(["w"], "l") == ["w", "l"]
  {
    assert Join(["l"], "/") == "l" && ["w"] + ["l"] == ["w", "l"];
    PlainTextNames(["w"], ["l"]);
    TrimNothing("l");
  }

  lemma SlashedFree(disk: Disk, followLast: bool)
    requires Slashed(disk)
    ensures Walk(disk, [], ["w", "f"], MAX_SYSTEM_LINKS, followLast) == Missing(["w", "f"])
  {
    assert ["w"] + ["f"] == ["w", "f"];
    RealPathIsFixed(disk, ["w"], true);
    WalkLast(disk, [], ["w"], "f", MAX_SYSTEM_LINKS, followLast);
  }

  lemma SlashedText()
    ensures Split(Join(["f", ""], "/"), '/') == ["f", ""] && !IsAbsolute(Join(["f", ""], "/"))
    ensures ResolveText(["w"], Join(["f", ""], "/")) == ["w", "f"]
  {
    JoinSplits(["f", ""], '/');
    assert Join(["f", ""], "/")[0] == 'f';
    assert ["w"] + ["f"] == ["w", "f"] && ["f", ""][1..] == [""] && [""][1..] == [];
    assert Normalise(["w"], ["f", ""]) == Normalise(["w", "f"], [""]) == Normalise(["w", "f"], []);
  }

  lemma SlashedResolves(disk: Disk)
    requires Slashed(disk)
    ensures ResolvePath(disk, ["w"], "l", true) == Ok(["w", "f"])
  {
    SlashedRequest();
    SlashedText();
    SlashedFree(disk, false);
    RealPathIsFixed(disk, ["w"], true);
    RealPathIsFixed(disk, ["w", "l"], false);
    assert Parent(["w", "l"]) == ["w"] && Parent(["w", "f"]) == ["w"] && ["w"] + BaseName(["w", "f"]) == ["w", "f"];
    SettlesInOne(disk, ["w", "l"], Join(["f", ""], "/"), ["w", "f"], MAX_LINK_HOPS);
    InsideIsPrefix(["w"], ["w"]);
    InsideIsPrefix(["w"], ["w", "f"]);
    InsideIsPrefix(["w"], ["w", "l"]);
    ResolvesSo(disk, ["w"], "l", ["w"], ["w", "l"], ["w"], ["w", "f"]);
  }

  lemma SlashedIsNotFollowed(disk: Disk, after: Disk, bytes: string)
    requires Slashed(disk) && after == disk[["w", "f"] := File(bytes)]
    ensures Follow(after, ["w", "l"]) == Failed(NotDirectory) && RealPath(after, ["w"]) == Ok(["w"])
  {
    SlashedText();
    forall e | e in after ensures Placed(after, e) {
      assert Placed(disk, if e == ["w", "f"] then ["w", "l"] else e);
      assert Parent(["w", "f"]) == ["w"];
    }
    assert ["w"] + ["l"] == ["w", "l"] && ["w"] + ["f"] == ["w", "f"] && [] + ["w"] == ["w"];
    RealPathIsFree(after, [], ["w"], MAX_SYSTEM_LINKS);
    WalkResumes(after, [], ["w"], ["l"], MAX_SYSTEM_LINKS);
    assert ["f", ""] + ["l"][1..] == ["f", ""] && ["f", ""][1..] == [""];
    assert Follow(after, ["w", "l"]) == Walk(after, ["w"], ["f", ""], MAX_SYSTEM_LINKS - 1, true);
    assert Walk(after, ["w"], ["f", ""], MAX_SYSTEM_LINKS - 1, true) == Walk(after, ["w", "f"], [""], MAX_SYSTEM_LINKS - 1, true);
  }
}
