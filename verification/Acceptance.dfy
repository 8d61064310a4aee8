/** Which requests are resolved, and to what path: said of the disk alone. */
module Acceptance {
  import opened FileSystem
  import opened Text
  import opened Workspace
  import opened WorkspaceLinks

  // ----- a chain of links -----

  /** The `i`th name is a link, and the next is what its text says, read against the path that holds it. */
  ghost predicate Hops(disk: Disk, names: seq<Path>, i: nat)
    requires i + 1 < |names|
  {
    LinkAt(disk, names[i]).Ok? && names[i + 1] == ResolveText(Parent(names[i]), LinkAt(disk, names[i]).value)
  }

  /** From a name along links to one that is none. */
  ghost predicate Chain(disk: Disk, from: Path, names: seq<Path>) {
    && names != [] && names[0] == from && LinkAt(disk, names[|names| - 1]).Refused?
    && forall i: nat | i + 1 < |names| :: Hops(disk, names, i)
  }

  lemma ChainGoesOn(disk: Disk, from: Path, next: Path, rest: seq<Path>)
    requires LinkAt(disk, from).Ok? && next == ResolveText(Parent(from), LinkAt(disk, from).value)
    requires Chain(disk, next, rest)
    ensures Chain(disk, from, [from] + rest)
  {
    var names := [from] + rest;
    forall i: nat | i + 1 < |names| ensures Hops(disk, names, i) {
      if i > 0 { assert Hops(disk, rest, i - 1); }
    }
  }

  lemma ChainRest(disk: Disk, from: Path, names: seq<Path>)
    requires Chain(disk, from, names) && |names| > 1
    ensures LinkAt(disk, from).Ok? && names[1] == ResolveText(Parent(from), LinkAt(disk, from).value)
    ensures Chain(disk, names[1], names[1..])
  {
    assert Hops(disk, names, 0);
    forall i: nat | i + 1 < |names[1..]| ensures Hops(disk, names[1..], i) {
      assert Hops(disk, names, i + 1);
    }
  }

  lemma {:induction false} ChainOf(disk: Disk, from: Path, hops: nat) returns (names: seq<Path>)
    requires Destination(disk, from, hops).Ok?
    ensures Chain(disk, from, names) && |names| <= hops + 1 && names[|names| - 1] == Destination(disk, from, hops).value
    decreases hops
  {
    names := [from];
    if LinkAt(disk, from).Ok? {
      OneHop(disk, from, hops);
      var next := ResolveText(Parent(from), LinkAt(disk, from).value);
      var rest := ChainOf(disk, next, hops - 1);
      ChainGoesOn(disk, from, next, rest);
      names := names + rest;
    }
  }

  lemma {:induction false} ChainLeads(disk: Disk, from: Path, names: seq<Path>, hops: nat)
    requires Chain(disk, from, names) && |names| <= hops + 1
    ensures Destination(disk, from, hops) == Ok(names[|names| - 1])
    decreases hops
  {
    if |names| > 1 {
      ChainRest(disk, from, names);
      HopLeads(disk, from, names[1], hops);
      ChainLeads(disk, names[1], names[1..], hops - 1);
    } else {
      NoHop(disk, from, hops);
    }
  }

  lemma HopLeads(disk: Disk, from: Path, next: Path, hops: nat)
    requires LinkAt(disk, from).Ok? && next == ResolveText(Parent(from), LinkAt(disk, from).value) && hops > 0
    ensures Destination(disk, from, hops) == Destination(disk, next, hops - 1)
  {
    OneHop(disk, from, hops);
  }

  lemma NoHop(disk: Disk, from: Path, hops: nat)
    requires LinkAt(disk, from).Refused?
    ensures Destination(disk, from, hops) == Ok(from)
  {
  }

  /** A name is followed as a link at most 32 times: it leads wherever a chain of 33 names or fewer ends. */
  lemma LeadsAlongAChain(disk: Disk, from: Path, end: Path)
    ensures Destination(disk, from, MAX_LINK_HOPS) == Ok(end) <==>
      exists names :: Chain(disk, from, names) && |names| <= 33 && names[|names| - 1] == end
  {
    if Destination(disk, from, MAX_LINK_HOPS) == Ok(end) {
      var names := ChainOf(disk, from, MAX_LINK_HOPS);
    }
    if names :| Chain(disk, from, names) && |names| <= 33 && names[|names| - 1] == end {
      ChainLeads(disk, from, names, MAX_LINK_HOPS);
    }
  }

  // ----- the nearest place that exists -----

  /** The longest start of a path that leads to something, which is so many names long. */
  ghost predicate Nearest(disk: Disk, p: Path, n: nat) {
    && n <= |p| && RealPath(disk, p[..n]).Ok?
    && forall m | n < m <= |p| :: RealPath(disk, p[..m]).Refused?
  }

  lemma {:induction false} NearestExists(disk: Disk, p: Path, k: nat) returns (n: nat)
    requires WellFormed(disk) && k <= |p| && forall m | k < m <= |p| :: RealPath(disk, p[..m]).Refused?
    ensures Nearest(disk, p, n)
    decreases k
  {
    if RealPath(disk, p[..k]).Ok? {
      n := k;
    } else {
      assert p[..0] == [];
      n := NearestExists(disk, p, k - 1);
    }
  }

  lemma NearestAbove(disk: Disk, p: Path, n: nat)
    requires Nearest(disk, p, n) && n < |p|
    ensures Nearest(disk, Parent(p), n)
  {
    forall m: nat | m <= |p| - 1 ensures Parent(p)[..m] == p[..m] {
    }
  }

  lemma {:induction false} AncestorIsNearest(disk: Disk, root: Path, p: Path, n: nat)
    requires WellFormed(disk) && Plain(root) && Plain(p) && RealPath(disk, root) == Ok(root)
    requires Nearest(disk, p, n) && (root <= p || RealPath(disk, p).Ok?)
    ensures Ancestor(disk, root, p) == Ok(RealPath(disk, p[..n]).value)
    decreases |p|
  {
    assert p[..|p|] == p;
    if n < |p| {
      assert RealPath(disk, p[..|p|]).Refused?;
      NearestAbove(disk, p, n);
      assert root <= p && root != p;
      assert |root| < |p| && Parent(p)[..|root|] == p[..|root|] == root;
      InsideIsPrefix(root, Parent(p));
      AncestorIsNearest(disk, root, Parent(p), n);
      assert Parent(p)[..n] == p[..n];
    } else {
      assert p[..n] == p;
    }
  }

  // ----- which writes are accepted -----

  /** The directory a name is asked for in, or else the nearest one above it, is really under the root. */
  ghost predicate HeldInside(disk: Disk, root: Path, target: Path) {
    exists n: nat :: Nearest(disk, Parent(target), n) && root <= RealPath(disk, Parent(target)[..n]).value
  }

  /** The last name of a chain is in a directory that exists and is really under the root; the bytes go there. */
  ghost predicate EndsInside(disk: Disk, root: Path, end: Path, full: Path) {
    && RealPath(disk, Parent(end)).Ok? && root <= RealPath(disk, Parent(end)).value
    && full == RealPath(disk, Parent(end)).value + BaseName(end)
  }

  lemma AnchorIsInside(disk: Disk, root: Path, target: Path)
    requires WellFormed(disk) && Plain(root) && Plain(target) && RealPath(disk, root) == Ok(root) && root <= target
    ensures var p := Parent(target);
      HeldInside(disk, root, target) <==>
      if RealPath(disk, p).Ok? then Inside(root, RealPath(disk, p).value)
      else Ancestor(disk, root, p).Ok? && Inside(root, Ancestor(disk, root, p).value)
  {
    var p := Parent(target);
    var n := NearestExists(disk, p, |p|);
    assert p[..|p|] == p;
    if root == target && root != [] { ParentIsReal(disk, root); }
    AncestorIsNearest(disk, root, p, n);
    RealPathsAreReal(disk, p[..n]);
    InsideIsPrefix(root, RealPath(disk, p[..n]).value);
    forall m: nat | Nearest(disk, p, m) ensures m == n {
    }
  }

  lemma ParentIsReal(disk: Disk, p: Path)
    requires WellFormed(disk) && RealPath(disk, p) == Ok(p)
    ensures RealPath(disk, Parent(p)).Ok?
  {
    RealPathsAreReal(disk, p);
    assert Placed(disk, p);
    RealPathIsFixed(disk, Parent(p), true);
  }

  lemma TargetOf(disk: Disk, rootPath: Path, root: Path, requested: string) returns (target: Path)
    requires Rooted(disk, rootPath, root) && Wanted(requested).Ok?
    ensures target == ResolveText(root, Wanted(requested).value) && Plain(root) && Plain(target) && root <= target
    ensures RealPath(disk, root) == Ok(root)
    ensures ResolvePath(disk, rootPath, requested, true) == ResolveForWrite(disk, root, target)
    ensures ResolvePath(disk, rootPath, requested, false) == ResolveForRead(disk, root, target)
  {
    RealPathsAreReal(disk, rootPath);
    target := ResolveText(root, Wanted(requested).value);
    TextStaysInside(root, requested);
    InsideIsPrefix(root, target);
  }

  /** A name that is no link is written under exactly that name, whenever what is to hold it is really under the root. */
  lemma PlainWriteIsAccepted(disk: Disk, rootPath: Path, root: Path, requested: string)
    requires Rooted(disk, rootPath, root) && Wanted(requested).Ok?
    requires LinkAt(disk, ResolveText(root, Wanted(requested).value)).Refused?
    ensures var target, r := ResolveText(root, Wanted(requested).value), ResolvePath(disk, rootPath, requested, true);
      && (r.Ok? <==> HeldInside(disk, root, target)) && (r.Ok? ==> r.value == target)
  {
    var target := TargetOf(disk, rootPath, root, requested);
    AnchorIsInside(disk, root, target);
    PlainLanding(disk, root, target);
  }

  lemma PlainLanding(disk: Disk, root: Path, target: Path)
    requires LinkAt(disk, target).Refused?
    ensures Landing(disk, root, target) == Ok(target)
  {
  }

  /**
   * A name that is a link is accepted exactly when what holds it is really under the root, and its chain ends, in at
   * most 32 hops, at a name in a directory that exists and is really under the root.
   */
  lemma LinkedWriteIsAccepted(disk: Disk, rootPath: Path, root: Path, requested: string, full: Path)
    requires Rooted(disk, rootPath, root) && Wanted(requested).Ok?
    requires LinkAt(disk, ResolveText(root, Wanted(requested).value)).Ok?
    ensures var target := ResolveText(root, Wanted(requested).value);
      ResolvePath(disk, rootPath, requested, true) == Ok(full) <==>
        && HeldInside(disk, root, target)
        && exists names :: Chain(disk, target, names) && |names| <= 33 && EndsInside(disk, root, names[|names| - 1], full)
  {
    var target := TargetOf(disk, rootPath, root, requested);
    AnchorIsInside(disk, root, target);
    LinkedLanding(disk, root, target, full);
    ParentOfLink(disk, target);
  }

  lemma ParentOfLink(disk: Disk, target: Path)
    requires WellFormed(disk) && Plain(target) && LinkAt(disk, target).Ok?
    ensures RealPath(disk, Parent(target)).Ok?
  {
    if target != [] { var d := LinkIsHeld(disk, target, LinkAt(disk, target).value); }
  }

  lemma LinkedLanding(disk: Disk, root: Path, target: Path, full: Path)
    requires WellFormed(disk) && Plain(root) && Plain(target) && LinkAt(disk, target).Ok?
    ensures Landing(disk, root, target) == Ok(full) <==>
      exists names :: Chain(disk, target, names) && |names| <= 33 && EndsInside(disk, root, names[|names| - 1], full)
  {
    if Landing(disk, root, target) == Ok(full) {
      var end := Destination(disk, target, MAX_LINK_HOPS).value;
      LeadsAlongAChain(disk, target, end);
      DestinationIsNoLink(disk, target, MAX_LINK_HOPS);
      EndIsInside(disk, root, end, full);
    }
    if names :| Chain(disk, target, names) && |names| <= 33 && EndsInside(disk, root, names[|names| - 1], full) {
      var end := names[|names| - 1];
      LeadsAlongAChain(disk, target, end);
      EndIsInside(disk, root, end, full);
    }
  }

  lemma EndIsInside(disk: Disk, root: Path, end: Path, full: Path)
    requires WellFormed(disk) && Plain(root) && Plain(end)
    ensures EndsInside(disk, root, end, full) <==>
      && RealPath(disk, Parent(end)).Ok? && full == RealPath(disk, Parent(end)).value + BaseName(end)
      && Inside(root, RealPath(disk, Parent(end)).value) && Inside(root, full)
  {
    if RealPath(disk, Parent(end)).Ok? {
      RealPathsAreReal(disk, Parent(end));
      InsideIsPrefix(root, RealPath(disk, Parent(end)).value);
      InsideIsPrefix(root, RealPath(disk, Parent(end)).value + BaseName(end));
    }
  }

  /** What is refused of a link under the root, and why: it does not settle in 32 hops, or leads nowhere, or outside. */
  lemma LinkedWriteIsRefused(disk: Disk, rootPath: Path, root: Path, requested: string)
    requires Rooted(disk, rootPath, root) && Wanted(requested).Ok?
    requires LinkAt(disk, ResolveText(root, Wanted(requested).value)).Ok?
    requires HeldInside(disk, root, ResolveText(root, Wanted(requested).value))
    ensures var target, r := ResolveText(root, Wanted(requested).value), ResolvePath(disk, rootPath, requested, true);
      && (r == Refused(LinksDoNotSettle) <==> forall names | Chain(disk, target, names) :: |names| > 33)
      && (r == Refused(LeadsNowhere) <==>
            exists names :: Chain(disk, target, names) && |names| <= 33 && RealPath(disk, Parent(names[|names| - 1])).Refused?)
      && (r.Refused? ==> r.error in {LinksDoNotSettle, LeadsNowhere, OutsideWorkspace})
  {
    var target := TargetOf(disk, rootPath, root, requested);
    AnchorIsInside(disk, root, target);
    ParentOfLink(disk, target);
    LandingRefuses(disk, root, target);
    ChainOrNone(disk, target);
  }

  lemma LandingRefuses(disk: Disk, root: Path, target: Path)
    requires LinkAt(disk, target).Ok?
    ensures var r, to := Landing(disk, root, target), Destination(disk, target, MAX_LINK_HOPS);
      && (r == Refused(LinksDoNotSettle) <==> to.Refused?)
      && (r == Refused(LeadsNowhere) <==> to.Ok? && RealPath(disk, Parent(to.value)).Refused?)
      && (r.Refused? ==> r.error in {LinksDoNotSettle, LeadsNowhere, OutsideWorkspace})
  {
    if Destination(disk, target, MAX_LINK_HOPS).Ok? { DestinationIsNoLink(disk, target, MAX_LINK_HOPS); }
  }

  lemma ChainOrNone(disk: Disk, from: Path)
    ensures var to := Destination(disk, from, MAX_LINK_HOPS);
      && (to.Refused? <==> forall names | Chain(disk, from, names) :: |names| > 33)
      && (forall names | Chain(disk, from, names) && |names| <= 33 :: to == Ok(names[|names| - 1]))
  {
    forall names | Chain(disk, from, names) && |names| <= 33
      ensures Destination(disk, from, MAX_LINK_HOPS) == Ok(names[|names| - 1])
    {
      ChainLeads(disk, from, names, MAX_LINK_HOPS);
    }
    if Destination(disk, from, MAX_LINK_HOPS).Ok? { var names := ChainOf(disk, from, MAX_LINK_HOPS); }
  }

  /** A path is read exactly where it really leads, if that exists under the root. */
  lemma ReadIsAccepted(disk: Disk, rootPath: Path, root: Path, requested: string, at: Path)
    requires Rooted(disk, rootPath, root) && Wanted(requested).Ok?
    ensures var target, r := ResolveText(root, Wanted(requested).value), ResolvePath(disk, rootPath, requested, false);
      && (r == Ok(at) <==> RealPath(disk, target) == Ok(at) && root <= at)
      && (r == Refused(NoSuchFile) <==> RealPath(disk, target).Refused?)
  {
    var target := TargetOf(disk, rootPath, root, requested);
    if RealPath(disk, target).Ok? {
      RealPathsAreReal(disk, target);
      InsideIsPrefix(root, RealPath(disk, target).value);
    }
  }

  lemma ChainIsAccepted(disk: Disk, rootPath: Path, root: Path, requested: string, names: seq<Path>, full: Path)
    requires Rooted(disk, rootPath, root) && Wanted(requested).Ok?
    requires LinkAt(disk, ResolveText(root, Wanted(requested).value)).Ok?
    requires HeldInside(disk, root, ResolveText(root, Wanted(requested).value))
    requires Chain(disk, ResolveText(root, Wanted(requested).value), names) && |names| <= 33
    requires EndsInside(disk, root, names[|names| - 1], full)
    ensures ResolvePath(disk, rootPath, requested, true) == Ok(full)
  {
    LinkedWriteIsAccepted(disk, rootPath, root, requested, full);
  }

  /** A link beside a file in the root: writing to the link is accepted, and the bytes are in the file. */
  lemma LinkBesideAFile(disk: Disk, rootPath: Path, root: Path, link: string, file: string, bytes: string, append: bool)
    requires Rooted(disk, rootPath, root) && PlainName(link) && PlainName(file) && Wanted(link) == Ok(link)
    requires root + [file] in disk && disk[root + [file]].File?
    requires root + [link] in disk && disk[root + [link]] == Link(file)
    ensures ResolvePath(disk, rootPath, link, true) == Ok(root + [file]) && MakeDirectories(disk, root) == Ok(disk)
    ensures WriteFile(disk, root + [file], bytes, append) ==
      Ok(Written(disk[root + [file] := File(if append then disk[root + [file]].bytes + bytes else bytes)], root + [file]))
  {
    RealPathsAreReal(disk, rootPath);
    assert IsDir(disk, root) by { HoldsALink(disk, root, link); }
    RootIsThere(disk, root);
    FileIsWritten(disk, root + [file], bytes, append);
    LinkLeadsToFile(disk, rootPath, root, link, file);
  }

  lemma HoldsALink(disk: Disk, root: Path, name: string)
    requires WellFormed(disk) && root + [name] in disk
    ensures IsDir(disk, root)
  {
    assert Placed(disk, root + [name]) && Parent(root + [name]) == root;
  }

  lemma LinkLeadsToFile(disk: Disk, rootPath: Path, root: Path, link: string, file: string)
    requires Rooted(disk, rootPath, root) && PlainName(link) && PlainName(file) && Wanted(link) == Ok(link)
    requires root + [file] in disk && disk[root + [file]].File?
    requires root + [link] in disk && disk[root + [link]] == Link(file)
    ensures ResolvePath(disk, rootPath, link, true) == Ok(root + [file])
  {
    RealPathsAreReal(disk, rootPath);
    BesideNames(root, link);
    ShortChain(disk, root, link, file);
    RootHolds(disk, root, link);
    var names := [root + [link], root + [file]];
    assert names[|names| - 1] == root + [file];
    ChainIsAccepted(disk, rootPath, root, link, names, root + [file]);
  }

  lemma RootHolds(disk: Disk, root: Path, name: string)
    requires RealPath(disk, root) == Ok(root)
    ensures HeldInside(disk, root, root + [name])
  {
    assert Parent(root + [name]) == root && root[..|root|] == root;
    assert Nearest(disk, root, |root|);
  }

  lemma FileIsWritten(disk: Disk, at: Path, bytes: string, append: bool)
    requires WellFormed(disk) && at in disk && disk[at].File?
    ensures WriteFile(disk, at, bytes, append) ==
      Ok(Written(disk[at := File(if append then disk[at].bytes + bytes else bytes)], at))
  {
    RealPathIsFixed(disk, at, true);
  }

  lemma ShortChain(disk: Disk, root: Path, link: string, file: string)
    requires WellFormed(disk) && Plain(root) && RealPath(disk, root) == Ok(root) && PlainName(link) && PlainName(file)
    requires root + [file] in disk && disk[root + [file]].File?
    requires root + [link] in disk && disk[root + [link]] == Link(file)
    ensures LinkAt(disk, root + [link]) == Ok(file) && Chain(disk, root + [link], [root + [link], root + [file]])
    ensures EndsInside(disk, root, root + [file], root + [file])
  {
    var from, to := root + [link], root + [file];
    RealPathIsFixed(disk, from, false);
    RealPathIsFixed(disk, to, false);
    BesideNames(root, file);
    assert Parent(from) == root && Parent(to) == root;
    assert LinkAt(disk, to).Refused? && Hops(disk, [from, to], 0);
  }

  lemma BesideNames(root: Path, name: string)
    requires PlainName(name)
    ensures ResolveText(root, name) == root + [name]
  {
    assert Join([name], "/") == name;
    PlainTextNames(root, [name]);
  }

  lemma RootIsThere(disk: Disk, root: Path)
    requires WellFormed(disk) && IsDir(disk, root)
    ensures MakeDirectories(disk, root) == Ok(disk)
  {
    RealPathIsFixed(disk, root, false);
    RealPathIsFixed(disk, root, true);
  }
}
