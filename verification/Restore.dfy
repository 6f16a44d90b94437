/** Restoring a checkpoint: the in-place update of a work tree, and what the preflight promises.
    Paths are lists of components below the root; a directory is a node of its own. */
module Restore {
  import GitZ
  import Paths

  type Path = seq<string>

  datatype Node = Dir | File(executable: bool, content: string) | Link(target: string)

  type Tree = map<Path, Node>

  datatype Mode = Regular | Executable | Symlink | Submodule | Unsupported

  /** A tree entry with the content of its blob, when that can be read. */
  datatype Entry = Entry(mode: Mode, blob: Blob)

  datatype Blob = Readable(content: string) | Unreadable

  type Listing = map<Path, Entry>

  // ---- trees -------------------------------------------------------------------

  predicate Below(p: Path, q: Path) {
    |p| < |q| && q[..|p|] == p
  }

  /** Every node stands in directories. */
  predicate TreeOk(t: Tree) {
    forall p | p in t :: p != [] && forall k | 0 < k < |p| :: p[..k] in t && t[p[..k]].Dir?
  }

  predicate Leaf(t: Tree, p: Path) { p in t && !t[p].Dir? }

  predicate Childless(t: Tree, p: Path) {
    forall q | q in t :: !Below(p, q)
  }

  predicate Hollow(t: Tree, d: Path) { d in t && t[d].Dir? && Childless(t, d) }

  predicate LeafAbove(t: Tree, p: Path) {
    exists k | 0 < k < |p| :: Leaf(t, p[..k])
  }

  /** A path where nothing can be written: a leaf stands above it or a filled directory at it. */
  predicate Obstructed(t: Tree, p: Path) {
    LeafAbove(t, p) || (p in t && t[p].Dir? && !Childless(t, p))
  }

  predicate Apart(p: Path, q: Path) { p != q && !Below(p, q) && !Below(q, p) }

  predicate PrefixFree(l: Listing) {
    forall p, q | p in l && q in l && p != q :: Apart(p, q)
  }

  /** The components of a path are what stands between its slashes. */
  predicate PathsOk(l: Listing) { forall p | p in l :: p != [] && Paths.AllPlain(p) }

  /** t has only nodes of s. */
  predicate Shrunk(s: Tree, t: Tree) {
    forall p | p in t :: p in s && t[p] == s[p]
  }

  ghost predicate SameHollow(s: Tree, t: Tree) {
    forall d :: Hollow(s, d) <==> Hollow(t, d)
  }

  function Parent(p: Path): Path
    requires p != []
  {
    p[..|p| - 1]
  }

  // ---- what a listing asks for ----------------------------------------------------

  predicate Extra(target: Listing, current: Listing, p: Path) { p in current && p !in target }

  predicate Written(target: Listing, p: Path) { p in target && !target[p].mode.Submodule? }

  predicate Content(e: Entry) {
    e.blob.Readable? && (e.mode.Symlink? ==> '\0' !in e.blob.content)
  }

  /** The node is what the entry asks for: a link to the text of its blob, or a file with that text,
      executable exactly in mode 100755. */
  predicate Holds(n: Node, e: Entry) {
    && e.blob.Readable? && !e.mode.Submodule?
    && (e.mode == Symlink ==> n == Link(e.blob.content))
    && (e.mode == Executable ==> n == File(true, e.blob.content))
    && (e.mode == Regular || e.mode == Unsupported ==> n == File(false, e.blob.content))
  }

  function NodeOf(e: Entry): (n: Node)
    requires e.blob.Readable? && !e.mode.Submodule?
    ensures Holds(n, e) && !n.Dir?
  {
    if e.mode.Symlink? then Link(e.blob.content) else File(e.mode.Executable?, e.blob.content)
  }

  /** The path with slashes. */
  function TextOf(p: Path): string { Paths.Join(p) }

  /** ValidateRelativePath: a safe path without NUL, backslash or drive letter. */
  predicate Writable(p: Path) {
    var s := TextOf(p);
    GitZ.Safe(s) && '\0' !in s && '\\' !in s && !(|s| >= 2 && Paths.Letter(s[0]) && s[1] == ':')
  }

  /** A path is writable exactly when it leads to a name below the root and never above, no name has a NUL
      or a backslash, and it does not start with a drive letter. */
  lemma WritableExactly(p: Path)
    requires p != [] && Paths.AllPlain(p)
    ensures Writable(p) <==>
      && p[0] != "" && Paths.Walk(p, false).up == 0 && Paths.Walk(p, false).down != []
      && (forall e | e in p :: '\0' !in e && '\\' !in e)
      && !(|p[0]| >= 2 && Paths.Letter(p[0][0]) && p[0][1] == ':')
  {
    SafeExactly(p);
    ForbiddenCharacters(p);
    hide GitZ.Safe, Paths.Walk, TextOf, Paths.AllPlain;
    if p[0] != "" {
      DriveExactly(p);
    }
  }

  lemma SafeExactly(p: Path)
    requires p != [] && Paths.AllPlain(p)
    ensures GitZ.Safe(TextOf(p)) <==> p[0] != "" && Paths.Walk(p, false).up == 0 && Paths.Walk(p, false).down != []
  {
    hide GitZ.Safe, Paths.Walk, Paths.Split, Paths.Join;
    var s := TextOf(p);
    Paths.SplitJoin(p);
    Paths.JoinHead(p);
    GitZ.SafeLeadsBelow(s);
    if p[0] == "" {
      assert s == "" || s[..1] == "" + "/";
    } else {
      DriveAtHead(p[0], s);
    }
  }

  lemma ForbiddenCharacters(p: Path)
    ensures '\0' !in TextOf(p) && '\\' !in TextOf(p) <==> forall e | e in p :: '\0' !in e && '\\' !in e
  {
    Paths.JoinHolds(p, '\0');
    Paths.JoinHolds(p, '\\');
    hide Paths.Join;
  }

  lemma DriveExactly(p: Path)
    requires p != [] && Paths.AllPlain(p) && p[0] != ""
    ensures var s := TextOf(p); |s| >= 2 && Paths.Letter(s[0]) && s[1] == ':' <==>
      |p[0]| >= 2 && Paths.Letter(p[0][0]) && p[0][1] == ':'
  {
    Paths.JoinHead(p);
    hide Paths.Join;
    DriveAtHead(p[0], TextOf(p));
  }

  lemma DriveAtHead(name: string, s: string)
    requires name != "" && Paths.Plain(name) && (s == name || (|s| > |name| && s[..|name| + 1] == name + "/"))
    ensures s != "" && s[0] == name[0] && s[0] != '/'
    ensures |s| >= 2 && s[1] == ':' <==> |name| >= 2 && name[1] == ':'
  {
    if s != name {
      assert s[|name|] == '/' && forall i | 0 <= i < |name| :: s[i] == name[i];
    }
  }

  /** Proper names make a safe path. */
  lemma NamesAreSafe(p: Path)
    requires p != [] && Paths.CleanForm(p, false) && p[0] != ".."
    ensures GitZ.Safe(TextOf(p))
  {
    Paths.CleanFormWalks(p, false);
    SafeExactly(p);
  }

  // ---- the order of removal ----------------------------------------------------------

  /** Deeper paths come first, and of equally deep ones the one with the greater text. */
  predicate Sooner(p: Path, q: Path) {
    |p| > |q| || (|p| == |q| && Paths.Less(TextOf(q), TextOf(p)))
  }

  lemma SoonerTotal(p: Path, q: Path)
    requires p != [] && q != [] && Paths.AllPlain(p) && Paths.AllPlain(q)
    ensures p == q || Sooner(p, q) || Sooner(q, p)
    ensures !(Sooner(p, q) && Sooner(q, p))
  {
    Paths.SplitJoin(p);
    Paths.SplitJoin(q);
    Paths.LessTotal(TextOf(p), TextOf(q));
  }

  lemma SoonerTrans(p: Path, q: Path, r: Path)
    requires Sooner(p, q) && Sooner(q, r)
    ensures Sooner(p, r)
  {
    if |p| == |q| == |r| {
      Paths.LessTrans(TextOf(r), TextOf(q), TextOf(p));
    }
  }

  predicate RemovalOrder(ps: seq<Path>) {
    forall i, j | 0 <= i < j < |ps| :: Sooner(ps[i], ps[j])
  }

  function Placed(ps: seq<Path>, p: Path): seq<Path> {
    if ps == [] || Sooner(ps[|ps| - 1], p) then ps + [p]
    else Placed(ps[..|ps| - 1], p) + [ps[|ps| - 1]]
  }

  lemma {:induction false} PlacedInOrder(ps: seq<Path>, p: Path)
    requires RemovalOrder(ps) && forall q | q in ps + [p] :: q != [] && Paths.AllPlain(q)
    requires p !in ps
    ensures RemovalOrder(Placed(ps, p)) && forall q :: q in Placed(ps, p) <==> q in ps || q == p
  {
    hide Sooner;
    if ps == [] {
    } else {
      var n := |ps| - 1;
      assert ps == ps[..n] + [ps[n]] && ps[n] in ps + [p] && p in ps + [p];
      SoonerTotal(ps[n], p);
      if Sooner(ps[n], p) {
        forall i | 0 <= i < n ensures Sooner(ps[i], p) {
          SoonerTrans(ps[i], ps[n], p);
        }
      } else {
        assert forall q | q in ps[..n] + [p] :: q in ps + [p];
        PlacedInOrder(ps[..n], p);
        var before := Placed(ps[..n], p);
        forall i | 0 <= i < |before| ensures Sooner(before[i], ps[n]) {
          assert before[i] in before;
        }
      }
    }
  }

  /** The extra paths in the order in which they are removed. */
  method ExtrasInOrder(target: Listing, current: Listing) returns (ps: seq<Path>)
    requires PathsOk(current)
    ensures RemovalOrder(ps) && forall p :: p in ps <==> Extra(target, current, p)
  {
    hide RemovalOrder, Paths.AllPlain;
    ps := [];
    RemovalOrderEmpty();
    var rest := set p | p in current && p !in target;
    while rest != {}
      invariant RemovalOrder(ps)
      invariant forall p :: p in ps <==> Extra(target, current, p) && p !in rest
      invariant forall p | p in rest :: Extra(target, current, p)
      decreases |rest|
    {
      var p :| p in rest;
      PlacedInOrder(ps, p);
      ps := Placed(ps, p);
      rest := rest - {p};
    }
  }

  lemma RemovalOrderEmpty()
    ensures RemovalOrder([])
  {
  }

  // ---- removing and adding nodes --------------------------------------------------------

  lemma MissingAbove(t: Tree, p: Path, k: nat)
    requires TreeOk(t) && 0 < k < |p| && p[..k] !in t
    requires forall m | 0 < m < k :: p[..m] in t && t[p[..m]].Dir?
    ensures !LeafAbove(t, p)
  {
    forall m | k < m < |p| ensures p[..m] !in t {
      assert p[..m][..k] == p[..k];
    }
  }

  lemma NothingPastLeaf(t: Tree, p: Path, k: nat)
    requires TreeOk(t) && 0 < k < |p| && Leaf(t, p[..k])
    ensures forall m | k < m < |p| :: p[..m] !in t
    ensures forall m | 0 < m < k :: p[..m] in t && t[p[..m]].Dir?
  {
    forall m | k < m < |p| ensures p[..m] !in t {
      assert p[..m][..k] == p[..k];
    }
    forall m | 0 < m < k ensures p[..m] in t && t[p[..m]].Dir? {
      assert p[..k][..m] == p[..m];
    }
  }

  /** Removing a node without children keeps the tree in shape. */
  lemma NodeRemoved(t: Tree, p: Path)
    requires TreeOk(t) && p in t && Childless(t, p)
    ensures TreeOk(t - {p})
  {
  }

  /** Only the parent of a removed node can become hollow. */
  lemma OnlyParentHollows(t: Tree, p: Path, x: Path)
    requires TreeOk(t) && p in t && Childless(t, p) && x != p && x != Parent(p)
    ensures Hollow(t - {p}, x) <==> Hollow(t, x)
  {
    if x in t && Below(x, p) {
      var q := Parent(p);
      assert q == p[..|p| - 1] && |x| < |q|;
      assert q in t && q[..|x|] == x;
      assert Below(x, q);
    }
  }

  lemma DirRemoved(base: Tree, t: Tree, d: Path)
    requires TreeOk(t) && Shrunk(base, t) && d != [] && Hollow(t, d) && !Hollow(base, d)
    requires forall x | x != d :: Hollow(t, x) <==> Hollow(base, x)
    ensures TreeOk(t - {d})
    ensures Parent(d) != [] ==> Parent(d) in t && t[Parent(d)].Dir?
    ensures forall x | x != Parent(d) :: Hollow(t - {d}, x) <==> Hollow(base, x)
    ensures !Hollow(base, Parent(d))
  {
    NodeRemoved(t, d);
    assert Below(Parent(d), d);
    forall x | x != Parent(d) ensures Hollow(t - {d}, x) <==> Hollow(base, x) {
      if x != d {
        OnlyParentHollows(t, d, x);
      }
    }
  }

  /** Nothing stands below a path that is not a directory. */
  lemma NoneBelow(t: Tree, p: Path)
    requires TreeOk(t) && p != []
    ensures p !in t || !t[p].Dir? ==> Childless(t, p)
  {
  }

  lemma LeafRemoved(t: Tree, p: Path)
    requires TreeOk(t) && Leaf(t, p)
    ensures TreeOk(t - {p})
    ensures Parent(p) != [] ==> Parent(p) in t && t[Parent(p)].Dir?
    ensures forall x | x != Parent(p) :: Hollow(t - {p}, x) <==> Hollow(t, x)
    ensures !Hollow(t, Parent(p))
  {
    NoneBelow(t, p);
    NodeRemoved(t, p);
    assert Below(Parent(p), p);
    forall x | x != Parent(p) ensures Hollow(t - {p}, x) <==> Hollow(t, x) {
      if x != p {
        OnlyParentHollows(t, p, x);
      }
    }
  }

  lemma BelowTrans(x: Path, y: Path, z: Path)
    requires Below(x, y) && Below(y, z)
    ensures Below(x, z)
  {
  }

  /** u is t with some directories above p added. */
  predicate Grown(t: Tree, u: Tree, p: Path) {
    && (forall q | q in t :: q in u && u[q] == t[q])
    && (forall q | q in u && q !in t :: u[q].Dir? && Below(q, p))
  }

  /** New directories above p obstruct nothing that was free, at p or apart from it. */
  lemma GrownObstructs(t: Tree, u: Tree, p: Path)
    requires TreeOk(t) && TreeOk(u) && Grown(t, u, p)
    ensures forall q :: Leaf(u, q) <==> Leaf(t, q)
    ensures forall q | q == p || Apart(p, q) :: Obstructed(u, q) <==> Obstructed(t, q)
    ensures LeafAbove(u, p) <==> LeafAbove(t, p)
  {
  }

  lemma NodePlaced(t: Tree, p: Path, n: Node)
    requires TreeOk(t) && p != [] && (p in t && t[p].Dir? ==> Childless(t, p))
    requires forall k | 0 < k < |p| :: p[..k] in t && t[p[..k]].Dir?
    ensures TreeOk(t[p := n])
  {
  }

  lemma LeafObstructs(t: Tree, p: Path, n: Node)
    requires !n.Dir?
    ensures forall q | Apart(p, q) :: Obstructed(t[p := n], q) <==> Obstructed(t, q)
  {
  }

  // ---- removing the extra paths ---------------------------------------------------------

  /** The condition under which removing an extra path succeeds. */
  predicate Removable(t: Tree, p: Path, mode: Mode) {
    && Writable(p) && !LeafAbove(t, p)
    && (p in t ==> if mode.Submodule? || t[p].Dir? then Hollow(t, p) else true)
  }

  /** Between t and u the node at p disappeared, and with a leaf the directories it leaves empty. */
  ghost predicate Removed(t: Tree, u: Tree, p: Path)
    requires p != []
  {
    && Shrunk(t, u) && p !in u
    && (forall q | q in t && q !in u :: q == p || (Below(q, p) && Leaf(t, p)))
    && (forall d | Hollow(u, d) :: Hollow(t, d) || (d == Parent(p) && p in t && t[p].Dir?))
  }

  /** A directory that the restore leaves behind empty: the last thing removed from it is a
      directory, after which nobody looks at it again. */
  ghost predicate LeftBehind(t: Tree, target: Listing, current: Listing, d: Path) {
    exists e | e in t :: LastChild(t, target, current, d, e)
  }

  ghost predicate LastChild(t: Tree, target: Listing, current: Listing, d: Path, e: Path) {
    && d in t && Extra(target, current, e) && e != [] && Parent(e) == d && e in t && t[e].Dir?
    && forall f | Leaf(t, f) && Extra(target, current, f) && |f| == |e| && f[..|f| - 1] == d ::
         Paths.Less(TextOf(e), TextOf(f))
  }

  /** The state of the removing loop: s at its start, t now. */
  ghost predicate Removing(s: Tree, t: Tree, target: Listing, current: Listing, done: seq<Path>, rest: seq<Path>) {
    && Shrunk(s, t)
    && (forall p | p in done :: p !in t && p in current && Removable(s, p, current[p].mode))
    && (forall p, q | p in rest && q in s && (q == p || Below(p, q)) :: q in t)
    && (forall q | Leaf(s, q) && q !in done :: q in t)
    && (forall d | Hollow(s, d) && d !in done :: d in t)
    && (forall d | Hollow(t, d) :: Hollow(s, d) || LeftBehind(s, target, current, d))
    && (forall d | LeftBehind(s, target, current, d) :: d in t)
  }

  /** The extra paths, split where the loop stands. */
  ghost predicate Divided(target: Listing, current: Listing, done: seq<Path>, rest: seq<Path>) {
    RemovalOrder(done + rest) && forall p :: p in done + rest <==> Extra(target, current, p)
  }

  lemma NoExtraAbove(target: Listing, current: Listing, p: Path, k: nat)
    requires PrefixFree(current) && Extra(target, current, p) && 0 < k < |p|
    ensures !Extra(target, current, p[..k])
  {
    assert Below(p[..k], p);
  }

  /** What has been removed so far does not change whether the next path is removable. */
  lemma NextRemovable(s: Tree, t: Tree, target: Listing, current: Listing, done: seq<Path>, rest: seq<Path>)
    requires TreeOk(s) && TreeOk(t) && PathsOk(current) && PrefixFree(current) && rest != []
    requires Divided(target, current, done, rest) && Removing(s, t, target, current, done, rest)
    ensures rest[0] in current && (Removable(t, rest[0], current[rest[0]].mode) <==> Removable(s, rest[0], current[rest[0]].mode))
  {
    hide Writable, RemovalOrder;
    var p := rest[0];
    assert p in done + rest;
    forall k | 0 < k < |p| ensures Leaf(t, p[..k]) <==> Leaf(s, p[..k]) {
      NoExtraAbove(target, current, p, k);
      assert p[..k] !in done + rest;
    }
  }

  /** One removal keeps the rest of the state. */
  lemma RemovedMore(s: Tree, t: Tree, u: Tree, target: Listing, current: Listing, done: seq<Path>, rest: seq<Path>)
    requires TreeOk(s) && TreeOk(t) && PathsOk(current) && PrefixFree(current) && rest != [] && rest[0] != []
    requires Divided(target, current, done, rest) && Removing(s, t, target, current, done, rest)
    requires Removed(t, u, rest[0])
    ensures forall p, q | p in rest[1..] && q in s && (q == p || Below(p, q)) :: q in u
    ensures forall q | Leaf(s, q) && q !in done + [rest[0]] :: q in u
    ensures forall d | Hollow(s, d) && d !in done + [rest[0]] :: d in u
  {
    hide Writable, Sooner, LeftBehind, Removable, Divided, PrefixFree;
    var p := rest[0];
    forall x, q | x in rest[1..] && q in s && (q == x || Below(x, q)) ensures q in u {
      RestApart(target, current, done, rest, x);
      assert q in t;
      if q !in u && q != p {
        BelowOrSame(x, q, p);
      }
    }
    assert forall q | q in t && q !in u && q != p :: q == p[..|q|] && |q| < |p|;
  }

  lemma BelowOrSame(x: Path, q: Path, p: Path)
    requires (q == x || Below(x, q)) && Below(q, p)
    ensures Below(x, p)
  {
  }

  /** The first path is apart from the later ones. */
  lemma RestApart(target: Listing, current: Listing, done: seq<Path>, rest: seq<Path>, x: Path)
    requires PathsOk(current) && PrefixFree(current) && rest != [] && Divided(target, current, done, rest) && x in rest[1..]
    ensures Apart(rest[0], x)
  {
    var i :| 0 < i < |rest| && rest[i] == x;
    assert rest[0] in done + rest && x in done + rest;
    assert (done + rest)[|done|] == rest[0] && (done + rest)[|done| + i] == x;
    assert Sooner(rest[0], x);
    SoonerTotal(x, rest[0]);
  }

  /** The directory left by a removed directory is left behind for good. */
  lemma NewlyHollow(s: Tree, t: Tree, u: Tree, target: Listing, current: Listing, done: seq<Path>, rest: seq<Path>)
    requires TreeOk(s) && PathsOk(current) && rest != [] && rest[0] != []
    requires Divided(target, current, done, rest) && Removing(s, t, target, current, done, rest)
    requires Removed(t, u, rest[0]) && rest[0] in t && t[rest[0]].Dir? && Hollow(u, Parent(rest[0]))
    requires forall q | Leaf(s, q) && q !in done + [rest[0]] :: q in u
    ensures LeftBehind(s, target, current, Parent(rest[0]))
  {
    hide Removable, Sooner;
    var e := rest[0];
    var d := Parent(e);
    assert e in done + rest && e in s && s[e] == t[e];
    hide Removing;
    forall f | Leaf(s, f) && Extra(target, current, f) && |f| == |e| && f[..|f| - 1] == d ensures Sooner(f, e) {
      assert Below(d, f);
      assert f !in u;
      var i :| 0 <= i < |done| && done[i] == f;
      assert (done + rest)[i] == f && (done + rest)[|done|] == e;
    }
    LastOfSiblings(s, target, current, d, e);
  }

  lemma LastOfSiblings(t: Tree, target: Listing, current: Listing, d: Path, e: Path)
    requires d in t && Extra(target, current, e) && e != [] && Parent(e) == d && e in t && t[e].Dir?
    requires forall f | Leaf(t, f) && Extra(target, current, f) && |f| == |e| && f[..|f| - 1] == d :: Sooner(f, e)
    ensures LastChild(t, target, current, d, e)
  {
  }

  /** Every extra path was handled before the next one, is the next one, or comes later. */
  lemma WhereExtra(target: Listing, current: Listing, done: seq<Path>, rest: seq<Path>, e: Path)
    requires rest != [] && Divided(target, current, done, rest) && Extra(target, current, e)
    ensures (e in done && Sooner(e, rest[0])) || e == rest[0] || e in rest[1..]
  {
    assert e in done + rest;
    if e in done {
      var i :| 0 <= i < |done| && done[i] == e;
      assert (done + rest)[i] == e && (done + rest)[|done|] == rest[0];
    }
  }

  /** A directory left behind is never removed with a file below it. */
  lemma StillBehind(s: Tree, t: Tree, u: Tree, target: Listing, current: Listing, done: seq<Path>, rest: seq<Path>, d: Path)
    requires TreeOk(s) && TreeOk(u) && PathsOk(current) && PrefixFree(current) && rest != [] && rest[0] != []
    requires Divided(target, current, done, rest) && Removing(s, t, target, current, done, rest)
    requires Removed(t, u, rest[0])
    requires forall p, q | p in rest[1..] && q in s && (q == p || Below(p, q)) :: q in u
    requires LeftBehind(s, target, current, d)
    ensures d in u
  {
    hide Removable, Sooner, Divided, PrefixFree, Writable;
    var e :| e in s && LastChild(s, target, current, d, e);
    if d !in u {
      assert d in t;
      hide Removing;
      assert e !in u by {
        assert d == e[..|e| - 1];
      }
      WhereExtra(target, current, done, rest, e);
      NextLeaf(s, t, u, target, current, done, rest, d, e);
      SoonerTotal(e, rest[0]);
    }
  }

  /** What removed d was a leaf: the next path, beside e and after it. */
  lemma NextLeaf(s: Tree, t: Tree, u: Tree, target: Listing, current: Listing, done: seq<Path>, rest: seq<Path>, d: Path, e: Path)
    requires PathsOk(current) && PrefixFree(current) && rest != [] && rest[0] != []
    requires Divided(target, current, done, rest) && Shrunk(s, t) && Removed(t, u, rest[0])
    requires e in s && LastChild(s, target, current, d, e) && d in t && d !in u
    ensures Extra(target, current, rest[0]) && rest[0] != e && Sooner(rest[0], e)
  {
    hide Paths.Less, Writable, TextOf, RemovalOrder;
    var p := rest[0];
    assert p in done + rest;
    assert Below(d, e) && d != p;
    assert Leaf(t, p) && Leaf(s, p) && Below(d, p);
    assert e != p;
  }

  lemma StepShrinks(s: Tree, t: Tree, u: Tree, p: Path)
    requires p != [] && Shrunk(s, t) && Removed(t, u, p)
    ensures Shrunk(s, u) && p !in u && forall q | q !in t :: q !in u
  {
  }

  lemma StepHollows(s: Tree, t: Tree, u: Tree, target: Listing, current: Listing, done: seq<Path>, rest: seq<Path>)
    requires TreeOk(s) && TreeOk(t) && TreeOk(u) && PathsOk(current) && PrefixFree(current) && rest != [] && rest[0] != []
    requires Divided(target, current, done, rest) && Removing(s, t, target, current, done, rest)
    requires Removed(t, u, rest[0])
    requires forall p, q | p in rest[1..] && q in s && (q == p || Below(p, q)) :: q in u
    requires forall q | Leaf(s, q) && q !in done + [rest[0]] :: q in u
    ensures forall d | Hollow(u, d) :: Hollow(s, d) || LeftBehind(s, target, current, d)
    ensures forall d | LeftBehind(s, target, current, d) :: d in u
  {
    hide LeftBehind, Removable, Sooner, PrefixFree, PathsOk, Writable, TreeOk, Hollow, RemovalOrder, Divided;
    forall d | Hollow(u, d) ensures Hollow(s, d) || LeftBehind(s, target, current, d) {
      if !Hollow(t, d) {
        NewlyHollow(s, t, u, target, current, done, rest);
      }
    }
    forall d | LeftBehind(s, target, current, d) ensures d in u {
      StillBehind(s, t, u, target, current, done, rest, d);
    }
  }

  lemma RemovingStep(s: Tree, t: Tree, u: Tree, target: Listing, current: Listing, done: seq<Path>, rest: seq<Path>)
    requires TreeOk(s) && TreeOk(t) && TreeOk(u) && PathsOk(current) && PrefixFree(current) && rest != [] && rest[0] != []
    requires Divided(target, current, done, rest) && Removing(s, t, target, current, done, rest)
    requires rest[0] in current && Removable(s, rest[0], current[rest[0]].mode) && Removed(t, u, rest[0])
    ensures Divided(target, current, done + [rest[0]], rest[1..])
    ensures Removing(s, u, target, current, done + [rest[0]], rest[1..])
  {
    hide LeftBehind, Removable, Sooner, PrefixFree, PathsOk, Writable, TreeOk, Hollow, RemovalOrder;
    RemovedMore(s, t, u, target, current, done, rest);
    assert done + [rest[0]] + rest[1..] == done + rest;
    StepShrinks(s, t, u, rest[0]);
    StepHollows(s, t, u, target, current, done, rest);
    hide Shrunk, Removed, Extra, Below, Leaf;
  }

  /** What the removing loop leaves when it goes through. */
  ghost predicate Cleared(s: Tree, t: Tree, target: Listing, current: Listing) {
    && Shrunk(s, t)
    && (forall p | Extra(target, current, p) :: p !in t)
    && (forall q | Leaf(s, q) && !Extra(target, current, q) :: q in t)
    && (forall d | Hollow(s, d) && !Extra(target, current, d) :: d in t)
    && (forall d | Hollow(t, d) :: Hollow(s, d) || LeftBehind(s, target, current, d))
    && (forall d | LeftBehind(s, target, current, d) :: d in t)
  }

  lemma RemovingStarts(s: Tree, target: Listing, current: Listing, ps: seq<Path>)
    ensures Removing(s, s, target, current, [], ps)
  {
  }

  lemma RemovingEnds(s: Tree, t: Tree, target: Listing, current: Listing, done: seq<Path>)
    requires Divided(target, current, done, []) && Removing(s, t, target, current, done, [])
    ensures Cleared(s, t, target, current)
    ensures forall p | Extra(target, current, p) :: Removable(s, p, current[p].mode)
  {
    hide LeftBehind, Removable, Hollow;
    assert done + [] == done;
  }

  lemma HollowRemoved(t: Tree, p: Path)
    requires TreeOk(t) && p in t && p != [] && Hollow(t, p)
    ensures Removed(t, t - {p}, p)
  {
    forall d | Hollow(t - {p}, d) && d != Parent(p) ensures Hollow(t, d) {
      OnlyParentHollows(t, p, d);
    }
  }

  lemma DividedStarts(target: Listing, current: Listing, order: seq<Path>)
    requires RemovalOrder(order) && (forall p :: p in order <==> Extra(target, current, p))
    ensures Divided(target, current, [], order)
  {
    assert [] + order == order;
  }

  lemma NextExtra(target: Listing, current: Listing, done: seq<Path>, rest: seq<Path>)
    requires Divided(target, current, done, rest) && rest != [] && PathsOk(current)
    ensures rest[0] != [] && Extra(target, current, rest[0])
  {
    assert rest[0] in done + rest;
  }

  lemma RemovingKeeps(s: Tree, t: Tree, target: Listing, current: Listing, done: seq<Path>, rest: seq<Path>)
    requires Divided(target, current, done, rest) && Removing(s, t, target, current, done, rest)
    ensures Shrunk(s, t) && forall p | Leaf(s, p) && !Extra(target, current, p) :: p in t
    ensures forall q | Leaf(s, q) && q !in done :: q in t
  {
    forall p | p in done ensures Extra(target, current, p) {
      assert p in done + rest;
    }
  }

  // ---- the work tree -----------------------------------------------------------------

  class WorkTree {
    var nodes: Tree

    ghost predicate Valid()
      reads this
    {
      TreeOk(nodes)
    }

    constructor (t: Tree)
      requires TreeOk(t)
      ensures Valid() && nodes == t
    {
      nodes := t;
    }

    /** Walks down to the parent of a path; a leaf on the way stops it. */
    method ParentBlocked(p: Path) returns (blocked: bool)
      requires Valid() && p != []
      ensures blocked <==> LeafAbove(nodes, p)
    {
      for k := 1 to |p|
        invariant forall m | 0 < m < k && m < |p| :: p[..m] in nodes && nodes[p[..m]].Dir?
      {
        if p[..k] !in nodes {
          MissingAbove(nodes, p, k);
          return false;
        }
        if !nodes[p[..k]].Dir? {
          return true;
        }
      }
      blocked := false;
    }

    /** removeEmptyParents: `base` is the tree whose hollow directories are to stay the only ones. */
    method RemoveEmptyParents(start: Path, ghost base: Tree)
      requires Valid() && Shrunk(base, nodes)
      requires start != [] ==> start in nodes && nodes[start].Dir?
      requires forall d | d != start :: Hollow(nodes, d) <==> Hollow(base, d)
      requires !Hollow(base, start)
      modifies this
      ensures Valid() && Shrunk(old(nodes), nodes) && SameHollow(base, nodes)
      ensures forall q | q in old(nodes) && q !in nodes :: q == start || Below(q, start)
      ensures forall p | Leaf(old(nodes), p) :: p in nodes
    {
      var current := start;
      while current != []
        invariant Valid() && Shrunk(old(nodes), nodes) && Shrunk(base, nodes)
        invariant current != [] ==> current in nodes && nodes[current].Dir?
        invariant forall d | d != current :: Hollow(nodes, d) <==> Hollow(base, d)
        invariant !Hollow(base, current) && (current == start || Below(current, start))
        invariant forall q | q in old(nodes) && q !in nodes :: q == start || Below(q, start)
        invariant forall p | Leaf(old(nodes), p) :: p in nodes
        decreases |current|
      {
        if !Childless(nodes, current) {
          return;
        }
        DirRemoved(base, nodes, current);
        nodes := nodes - {current};
        current := Parent(current);
      }
    }

    /** Removes one path that is not part of the target. */
    method RemoveExtra(p: Path, mode: Mode) returns (ok: bool)
      requires Valid() && p != []
      modifies this
      ensures Valid() && (ok <==> Removable(old(nodes), p, mode))
      ensures if ok then Removed(old(nodes), nodes, p) else nodes == old(nodes)
    {
      if !Writable(p) {
        return false;
      }
      var blocked := ParentBlocked(p);
      if blocked {
        return false;
      }
      if p !in nodes {
        return true;
      }
      if mode.Submodule? || nodes[p].Dir? {
        if !nodes[p].Dir? || !Childless(nodes, p) {
          return false;
        }
        NodeRemoved(nodes, p);
        HollowRemoved(nodes, p);
        nodes := nodes - {p};
        return true;
      }
      ghost var base := nodes;
      LeafRemoved(nodes, p);
      nodes := nodes - {p};
      RemoveEmptyParents(Parent(p), base);
      ok := true;
    }

    /** The first loop of the restore: removes every extra path, the deepest first. */
    method RemoveExtras(target: Listing, current: Listing) returns (ok: bool)
      requires Valid() && PathsOk(current) && PrefixFree(current)
      modifies this
      ensures Valid() && Shrunk(old(nodes), nodes)
      ensures forall p | Leaf(old(nodes), p) && !Extra(target, current, p) :: p in nodes
      ensures ok <==> forall p | Extra(target, current, p) :: Removable(old(nodes), p, current[p].mode)
      ensures ok ==> Cleared(old(nodes), nodes, target, current)
    {
      hide Removable, Removing, Removed, Divided, Cleared, PrefixFree, PathsOk, RemovalOrder;
      var rest := ExtrasInOrder(target, current);
      ghost var done: seq<Path> := [];
      DividedStarts(target, current, rest);
      RemovingStarts(nodes, target, current, rest);
      while rest != []
        invariant Valid() && Divided(target, current, done, rest)
        invariant Removing(old(nodes), nodes, target, current, done, rest)
        decreases |rest|
      {
        var p := rest[0];
        ghost var was := nodes;
        NextExtra(target, current, done, rest);
        NextRemovable(old(nodes), was, target, current, done, rest);
        RemovingKeeps(old(nodes), was, target, current, done, rest);
        ok := RemoveExtra(p, current[p].mode);
        if !ok {
          return;
        }
        RemovingStep(old(nodes), was, nodes, target, current, done, rest);
        done, rest := done + [p], rest[1..];
      }
      RemovingEnds(old(nodes), nodes, target, current, done);
      RemovingKeeps(old(nodes), nodes, target, current, done, []);
      ok := true;
    }

    /** ensureSafeParentDirectories: creates the missing parents of a path. */
    method EnsureParents(p: Path) returns (ok: bool)
      requires Valid() && p != []
      modifies this
      ensures Valid() && Grown(old(nodes), nodes, p)
      ensures ok <==> !LeafAbove(old(nodes), p)
      ensures ok ==> forall k | 0 < k < |p| :: p[..k] in nodes && nodes[p[..k]].Dir?
    {
      for k := 1 to |p|
        invariant Valid() && Grown(old(nodes), nodes, p)
        invariant forall m | 0 < m < k && m < |p| :: p[..m] in nodes && nodes[p[..m]].Dir?
      {
        var q := p[..k];
        if q !in nodes {
          assert Below(q, p) && forall m | 0 < m < k :: q[..m] == p[..m];
          nodes := nodes[q := Dir];
        } else if !nodes[q].Dir? {
          return false;
        }
      }
      ok := true;
    }

    /** removeReplaceablePath, then the new node under its final name. */
    method Replace(p: Path, n: Node) returns (ok: bool)
      requires Valid() && p != [] && !n.Dir? && forall k | 0 < k < |p| :: p[..k] in nodes && nodes[p[..k]].Dir?
      modifies this
      ensures Valid() && (ok <==> !(p in old(nodes) && old(nodes)[p].Dir? && !Childless(old(nodes), p)))
      ensures nodes == if ok then old(nodes)[p := n] else old(nodes)
    {
      if p in nodes && nodes[p].Dir? && !Childless(nodes, p) {
        return false;
      }
      NodePlaced(nodes, p, n);
      nodes := nodes - {p};
      nodes := nodes[p := n];
      ok := true;
    }

    /** Writes one target path. */
    method WriteTarget(p: Path, e: Entry) returns (ok: bool)
      requires Valid() && p != [] && !e.mode.Submodule?
      modifies this
      ensures Valid() && (ok <==> Writable(p) && Content(e) && !Obstructed(old(nodes), p))
      ensures forall q | q != p || !ok :: Leaf(nodes, q) <==> Leaf(old(nodes), q)
      ensures forall q | (q != p || !ok) && Leaf(old(nodes), q) :: q in nodes && nodes[q] == old(nodes)[q]
      ensures ok ==> Leaf(nodes, p) && Holds(nodes[p], e)
      ensures forall q | Apart(p, q) :: Obstructed(nodes, q) <==> Obstructed(old(nodes), q)
    {
      if !Writable(p) {
        return false;
      }
      ghost var was := nodes;
      ok := EnsureParents(p);
      GrownObstructs(was, nodes, p);
      if !ok {
        return;
      }
      ghost var grown := nodes;
      if !Content(e) {
        return false;
      }
      ok := Replace(p, NodeOf(e));
      if ok {
        LeafObstructs(grown, p, NodeOf(e));
      }
    }

    /** The second loop of the restore: writes every target path but the submodules. */
    method WriteTargets(target: Listing) returns (ok: bool)
      requires Valid() && PathsOk(target) && PrefixFree(target)
      modifies this
      ensures Valid()
      ensures ok <==> forall p | Written(target, p) :: Writable(p) && Content(target[p]) && !Obstructed(old(nodes), p)
      ensures forall q | !Written(target, q) :: Leaf(nodes, q) <==> Leaf(old(nodes), q)
      ensures forall q | !Written(target, q) && Leaf(old(nodes), q) :: q in nodes && nodes[q] == old(nodes)[q]
      ensures ok ==> forall p | Written(target, p) :: Content(target[p]) && p in nodes && Holds(nodes[p], target[p])
    {
      hide Holds, Content, Writable, Obstructed;
      var rest := set p | p in target && !target[p].mode.Submodule?;
      while rest != {}
        invariant Valid() && forall p | p in rest :: Written(target, p)
        invariant forall p | p in rest :: Obstructed(nodes, p) <==> Obstructed(old(nodes), p)
        invariant forall p | Written(target, p) && p !in rest ::
          Writable(p) && Content(target[p]) && !Obstructed(old(nodes), p) && Leaf(nodes, p) && Holds(nodes[p], target[p])
        invariant forall q | !Written(target, q) :: Leaf(nodes, q) <==> Leaf(old(nodes), q)
        invariant forall q | !Written(target, q) && Leaf(old(nodes), q) :: q in nodes && nodes[q] == old(nodes)[q]
        decreases |rest|
      {
        var p :| p in rest;
        ghost var before := nodes;
        ok := WriteTarget(p, target[p]);
        if !ok {
          return;
        }
        forall q | Written(target, q) && q !in rest ensures q in nodes && nodes[q] == before[q] {
          assert Leaf(before, q);
        }
        rest := rest - {p};
      }
      ok := true;
    }
  }

  // ---- restore correctness ---------------------------------------------------------------

  /** Every file outside both trees is as it was. */
  ghost predicate OutsideKept(was: Tree, now: Tree, target: Listing, current: Listing) {
    forall p | p !in target && p !in current ::
      (Leaf(now, p) <==> Leaf(was, p)) && (Leaf(was, p) ==> now[p] == was[p])
  }

  /** What a completed restore leaves: every written target holds its mode and content, no path
      of the current tree that the target lacks is left, and all other files are as they were. */
  ghost predicate Restored(was: Tree, now: Tree, target: Listing, current: Listing) {
    && (forall p | Written(target, p) :: Content(target[p]) && p in now && Holds(now[p], target[p]))
    && (forall p | Extra(target, current, p) :: !Leaf(now, p))
    && (forall p | !Written(target, p) && !Extra(target, current, p) ::
          (Leaf(now, p) <==> Leaf(was, p)) && (Leaf(was, p) ==> now[p] == was[p]))
  }

  /** The entry under which a file or link is recorded. */
  function EntryOf(n: Node): Entry
    requires !n.Dir?
  {
    match n
    case File(executable, content) => Entry(if executable then Executable else Regular, Readable(content))
    case Link(text) => Entry(Symlink, Readable(text))
  }

  /** The listing of all files and links of a tree. */
  function Captured(t: Tree): Listing {
    map p | p in t && !t[p].Dir? :: EntryOf(t[p])
  }

  /** Restoring the listing that was taken from a tree brings its files and links back, and leaves no
      others, however the work tree changed in between. */
  lemma CaptureRestored(taken: Tree, was: Tree, now: Tree, current: Listing)
    requires Restored(was, now, Captured(taken), current)
    requires forall p | Leaf(was, p) :: p in Captured(taken) || p in current
    ensures forall p :: Leaf(now, p) <==> Leaf(taken, p)
    ensures forall p | Leaf(taken, p) :: now[p] == taken[p]
  {
    var target := Captured(taken);
    assert forall p | Leaf(taken, p) :: Written(target, p) && target[p] == EntryOf(taken[p]);
    forall p | !Leaf(taken, p) ensures !Leaf(now, p) {
      assert p !in target && !Written(target, p);
    }
  }

  /** A file that the restore does not remove stands above p. */
  predicate BlockedAbove(t: Tree, target: Listing, current: Listing, p: Path) {
    exists k | 0 < k < |p| :: Leaf(t, p[..k]) && !Extra(target, current, p[..k])
  }

  /** What the removing loop leaves at q. */
  ghost predicate Kept(t: Tree, target: Listing, current: Listing, q: Path) {
    ((Leaf(t, q) || Hollow(t, q)) && !Extra(target, current, q)) || LeftBehind(t, target, current, q)
  }

  ghost predicate KeptBelow(t: Tree, target: Listing, current: Listing, p: Path) {
    exists q | q in t :: Below(p, q) && Kept(t, target, current, q)
  }

  /** When the restore goes through. */
  ghost predicate Restorable(t: Tree, target: Listing, current: Listing) {
    && (forall p | Extra(target, current, p) :: Removable(t, p, current[p].mode))
    && (forall p | Written(target, p) ::
          && Writable(p) && !BlockedAbove(t, target, current, p)
          && target[p].blob.Readable? && (target[p].mode.Symlink? ==> '\0' !in target[p].blob.content)
          && !(p in t && t[p].Dir? && KeptBelow(t, target, current, p)))
  }

  function Descendants(t: Tree, q: Path): set<Path> {
    set x | x in t && Below(q, x)
  }

  /** Below a filled directory stands a file or a hollow directory. */
  lemma BottomBelow(t: Tree, p: Path, q: Path) returns (r: Path)
    requires TreeOk(t) && q in t && Below(p, q)
    ensures r in t && Below(p, r) && (Leaf(t, r) || Hollow(t, r))
    decreases Descendants(t, q)
  {
    if Leaf(t, q) || Childless(t, q) {
      r := q;
    } else {
      var c :| c in t && Below(q, c);
      BelowTrans(p, q, c);
      forall x | x in t && Below(c, x) ensures Below(q, x) {
        BelowTrans(q, c, x);
      }
      assert c in Descendants(t, q) && c !in Descendants(t, c);
      assert Descendants(t, c) < Descendants(t, q);
      r := BottomBelow(t, p, c);
    }
  }

  /** What obstructs a target once the extra paths are gone. */
  lemma ObstructedAfter(s: Tree, t: Tree, target: Listing, current: Listing, p: Path)
    requires TreeOk(s) && TreeOk(t) && Cleared(s, t, target, current) && p != []
    ensures Obstructed(t, p) <==>
      (BlockedAbove(s, target, current, p) || (p in s && s[p].Dir? && KeptBelow(s, target, current, p)))
  {
    hide LeftBehind;
    forall k | 0 < k < |p| ensures Leaf(t, p[..k]) <==> Leaf(s, p[..k]) && !Extra(target, current, p[..k]) {
    }
    if KeptBelow(s, target, current, p) {
      var q :| q in s && Below(p, q) && Kept(s, target, current, q);
      assert q in t && q[..|p|] == p;
      assert p in t && t[p].Dir?;
    }
    if p in t && t[p].Dir? && !Childless(t, p) {
      var q :| q in t && Below(p, q);
      var r := BottomBelow(t, p, q);
      assert Kept(s, target, current, r);
    }
  }

  // ---- the preflight ---------------------------------------------------------------------

  /** What is found at a path. A directory is foreign when a file that is not extra stands in it. */
  datatype Sight = Missing | NotDirectory | Directory(foreign: bool) | Failed

  predicate FileAbove(t: Tree, p: Path) {
    exists k | 0 < k < |p| :: p[..k] in t && t[p[..k]].File?
  }

  /** Lstat with the walk of a directory. It fails below a file; below a link it depends on where
      the link leads, which `beyond` says. */
  ghost function Look(t: Tree, target: Listing, current: Listing, beyond: Path -> Sight, p: Path): Sight {
    if FileAbove(t, p) then Failed
    else if LeafAbove(t, p) then beyond(p)
    else if p !in t then Missing
    else if !t[p].Dir? then NotDirectory
    else Directory(exists q | Leaf(t, q) && Below(p, q) :: !Extra(target, current, q))
  }

  predicate SightFits(mode: Mode, seen: Sight) {
    if mode.Submodule? then seen.Directory? else !seen.Failed? && (seen.Directory? ==> !seen.foreign)
  }

  ghost predicate EntryFits(t: Tree, target: Listing, current: Listing, beyond: Path -> Sight, p: Path)
    requires p in target
  {
    && GitZ.Safe(TextOf(p)) && !target[p].mode.Unsupported?
    && (target[p].mode.Submodule? || target[p].blob.Readable?)
    && !BlockedAbove(t, target, current, p)
    && SightFits(target[p].mode, Look(t, target, current, beyond, p))
  }

  ghost predicate PreflightOk(t: Tree, target: Listing, current: Listing, beyond: Path -> Sight) {
    && (forall p | p in target :: EntryFits(t, target, current, beyond, p))
    && (forall p | p in current :: GitZ.Safe(TextOf(p)))
  }

  /** What an accepted preflight leaves open: whether everything extra can be removed, whether a
      directory that has to give way to a file holds one that stays behind empty, and whether
      paths and link targets are spelled as writing demands. */
  lemma PreflightGap(t: Tree, target: Listing, current: Listing, beyond: Path -> Sight)
    requires PreflightOk(t, target, current, beyond) && TreeOk(t)
    ensures Restorable(t, target, current) <==>
      && (forall p | Extra(target, current, p) :: Removable(t, p, current[p].mode))
      && (forall p | Written(target, p) && p in t && t[p].Dir? :: forall q | q in t && Below(p, q) ::
            !(Hollow(t, q) && !Extra(target, current, q)) && !LeftBehind(t, target, current, q))
      && (forall p | Written(target, p) :: Writable(p) && Content(target[p]))
  {
    hide Writable, LeftBehind, Removable, GitZ.Safe;
    forall p | Written(target, p) && p in t && t[p].Dir?
      ensures KeptBelow(t, target, current, p) <==> exists q | q in t && Below(p, q) ::
        (Hollow(t, q) && !Extra(target, current, q)) || LeftBehind(t, target, current, q)
    {
      assert EntryFits(t, target, current, beyond, p);
      assert !LeafAbove(t, p);
    }
  }

  /** A file or link of the current tree makes way for a directory of the target: the preflight
      accepts this only of a link, and then by what it sees beyond it. */
  lemma TypeChangeFits(t: Tree, target: Listing, current: Listing, beyond: Path -> Sight, p: Path, k: nat)
    requires TreeOk(t) && p in target && 0 < k < |p| && Leaf(t, p[..k]) && Extra(target, current, p[..k])
    ensures EntryFits(t, target, current, beyond, p) <==>
      && t[p[..k]].Link? && SightFits(target[p].mode, beyond(p))
      && GitZ.Safe(TextOf(p)) && !target[p].mode.Unsupported? && (target[p].mode.Submodule? || target[p].blob.Readable?)
  {
    hide GitZ.Safe;
    NothingPastLeaf(t, p, k);
  }

  /** The preflight refuses a restore that would go through exactly for an unsafe path or mode, a
      submodule without work tree, a file where a target needs a directory, or a link there
      behind which it sees the wrong thing. */
  lemma PreflightRefuses(t: Tree, target: Listing, current: Listing, beyond: Path -> Sight)
    requires TreeOk(t) && Restorable(t, target, current)
    ensures PreflightOk(t, target, current, beyond) <==>
      && (forall p | p in target || p in current :: GitZ.Safe(TextOf(p)))
      && (forall p | p in target :: !target[p].mode.Unsupported? && !FileAbove(t, p))
      && (forall p | p in target && !LeafAbove(t, p) && target[p].mode.Submodule? :: p in t && t[p].Dir?)
      && (forall p | p in target && LeafAbove(t, p) ::
            !BlockedAbove(t, target, current, p) && SightFits(target[p].mode, beyond(p)))
  {
    hide GitZ.Safe, Writable, Removable, LeftBehind;
    forall p | p in target
      ensures EntryFits(t, target, current, beyond, p) <==>
        && GitZ.Safe(TextOf(p)) && !target[p].mode.Unsupported? && !FileAbove(t, p)
        && (if LeafAbove(t, p) then !BlockedAbove(t, target, current, p) && SightFits(target[p].mode, beyond(p))
            else target[p].mode.Submodule? ==> p in t && t[p].Dir?)
    {
    }
  }

  // ---- where preflight and restore disagree -------------------------------------------

  /** Letters make safe paths. */
  lemma LettersAreSafe(p: Path)
    requires p != [] && forall i | 0 <= i < |p| :: |p[i]| == 1 && Paths.Letter(p[i][0])
    ensures GitZ.Safe(TextOf(p))
  {
    NamesAreSafe(p);
  }

  function HalfTree(a: Path, h: Path, x: Path): Tree {
    map[a := Dir, h := Dir, x := File(false, "old")]
  }

  function OneFile(p: Path, content: string): Listing {
    map[p := Entry(Regular, Readable(content))]
  }

  function OneSubmodule(p: Path): Listing {
    map[p := Entry(Submodule, Unreadable)]
  }

  lemma HalfTreeOk(a: Path, h: Path, x: Path)
    requires |a| == 1 && |h| == |x| == 2 && h[..1] == x[..1] == a && h != x
    ensures TreeOk(HalfTree(a, h, x)) && Hollow(HalfTree(a, h, x), h) && Below(a, h)
    ensures forall q | Leaf(HalfTree(a, h, x), q) :: q == x
  {
  }

  lemma OneFileFits(t: Tree, current: Listing, beyond: Path -> Sight, a: Path, content: string, q: Path)
    requires current.Keys == {q} && GitZ.Safe(TextOf(a)) && GitZ.Safe(TextOf(q)) && |a| == 1
    requires forall x | Leaf(t, x) && Below(a, x) :: x == q && q != a
    ensures PreflightOk(t, OneFile(a, content), current, beyond)
  {
  }

  /** A directory that stays in a directory where a file should go. */
  lemma NoWayForFile(t: Tree, current: Listing, a: Path, content: string, q: Path)
    requires a in t && t[a].Dir? && q in t && Below(a, q) && Kept(t, OneFile(a, content), current, q)
    ensures !Restorable(t, OneFile(a, content), current)
  {
    hide Writable, Removable, Kept;
    assert Written(OneFile(a, content), a);
  }

  /** The preflight accepts a restore that then stops half way, with a file already removed: an
      empty directory stands in one that has to give way to a file. */
  lemma PreflightIsNotEnough(beyond: Path -> Sight)
    ensures var t, target, current :=
      HalfTree(["a"], ["a", "h"], ["a", "x"]), OneFile(["a"], "new"), OneFile(["a", "x"], "old");
      TreeOk(t) && PreflightOk(t, target, current, beyond) && !Restorable(t, target, current)
  {
    var a, h, x: Path := ["a"], ["a", "h"], ["a", "x"];
    LettersAreSafe(a);
    LettersAreSafe(x);
    assert h[..1] == a && x[..1] == a && h[1] != x[1];
    HalfWay(a, h, x, beyond);
  }

  lemma HalfWay(a: Path, h: Path, x: Path, beyond: Path -> Sight)
    requires |a| == 1 && |h| == |x| == 2 && h[..1] == x[..1] == a && h != x
    requires GitZ.Safe(TextOf(a)) && GitZ.Safe(TextOf(x))
    ensures var t, target, current := HalfTree(a, h, x), OneFile(a, "new"), OneFile(x, "old");
      TreeOk(t) && PreflightOk(t, target, current, beyond) && !Restorable(t, target, current)
  {
    HalfTreeOk(a, h, x);
    OneFileFits(HalfTree(a, h, x), OneFile(x, "old"), beyond, a, "new", x);
    hide GitZ.Safe, TextOf, PreflightOk, Restorable, TreeOk, Hollow, Below;
    NoWayForFile(HalfTree(a, h, x), OneFile(x, "old"), a, "new", h);
  }

  /** So it does with a checked-out submodule that the target lacks. */
  lemma FilledSubmodule(beyond: Path -> Sight)
    ensures var t, current := map[["s"] := Dir, ["s", "f"] := File(false, "")], OneSubmodule(["s"]);
      TreeOk(t) && PreflightOk(t, map[], current, beyond) && !Restorable(t, map[], current)
  {
    var s, f: Path := ["s"], ["s", "f"];
    LettersAreSafe(s);
    assert f[..1] == s;
    Filled(s, f, beyond);
  }

  lemma Filled(s: Path, f: Path, beyond: Path -> Sight)
    requires |s| == 1 && |f| == 2 && f[..1] == s && GitZ.Safe(TextOf(s))
    ensures var t, current := map[s := Dir, f := File(false, "")], OneSubmodule(s);
      TreeOk(t) && PreflightOk(t, map[], current, beyond) && !Restorable(t, map[], current)
  {
    hide GitZ.Safe, TextOf, Writable;
    assert Below(s, f) && Extra(map[], OneSubmodule(s), s);
  }

  /** And with an empty submodule: the directory around it is not removed with it. */
  lemma NestLeftBehind(beyond: Path -> Sight)
    ensures var t, target, current :=
      map[["a"] := Dir, ["a", "b"] := Dir, ["a", "b", "s"] := Dir], OneFile(["a"], "new"), OneSubmodule(["a", "b", "s"]);
      TreeOk(t) && PreflightOk(t, target, current, beyond) && !Restorable(t, target, current)
  {
    var a, b, s: Path := ["a"], ["a", "b"], ["a", "b", "s"];
    LettersAreSafe(a);
    LettersAreSafe(s);
    assert b[..1] == a && s[..2] == b && s[..1] == a;
    Nested(a, b, s, beyond);
  }

  lemma NestShape(a: Path, b: Path, s: Path)
    requires |a| == 1 && |b| == 2 && |s| == 3 && b[..1] == s[..1] == a && s[..2] == b
    ensures var t: Tree := map[a := Dir, b := Dir, s := Dir];
      TreeOk(t) && Below(a, b) && (forall q :: !Leaf(t, q)) && LastChild(t, OneFile(a, "new"), OneSubmodule(s), b, s)
  {
    hide Sooner;
  }

  lemma Nested(a: Path, b: Path, s: Path, beyond: Path -> Sight)
    requires |a| == 1 && |b| == 2 && |s| == 3 && b[..1] == s[..1] == a && s[..2] == b
    requires GitZ.Safe(TextOf(a)) && GitZ.Safe(TextOf(s))
    ensures var t, target, current := map[a := Dir, b := Dir, s := Dir], OneFile(a, "new"), OneSubmodule(s);
      TreeOk(t) && PreflightOk(t, target, current, beyond) && !Restorable(t, target, current)
  {
    var t: Tree, current := map[a := Dir, b := Dir, s := Dir], OneSubmodule(s);
    hide GitZ.Safe, TextOf, PreflightOk, Writable, Restorable, LastChild;
    NestShape(a, b, s);
    OneFileFits(t, current, beyond, a, "new", s);
    assert LeftBehind(t, OneFile(a, "new"), current, b);
    hide LeftBehind, TreeOk;
    NoWayForFile(t, current, a, "new", b);
  }

  /** And with a name that only the restore refuses. */
  lemma BackslashRefused(t: Tree, beyond: Path -> Sight)
    requires TreeOk(t) && ["a\\b"] !in t
    ensures PreflightOk(t, OneFile(["a\\b"], ""), map[], beyond) && !Restorable(t, OneFile(["a\\b"], ""), map[])
  {
    var p: Path := ["a\\b"];
    NamesAreSafe(p);
    assert TextOf(p)[1] == '\\';
    hide GitZ.Safe, TextOf;
    UnwritableTarget(t, p, beyond);
  }

  lemma UnwritableTarget(t: Tree, p: Path, beyond: Path -> Sight)
    requires |p| == 1 && p !in t && TreeOk(t) && GitZ.Safe(TextOf(p)) && !Writable(p)
    ensures PreflightOk(t, OneFile(p, ""), map[], beyond) && !Restorable(t, OneFile(p, ""), map[])
  {
    hide Writable, GitZ.Safe, TextOf;
    assert Written(OneFile(p, ""), p);
  }

  /** The other way round: a file that makes way for a directory could be restored, and the
      preflight refuses. */
  lemma TypeChangeRefused(beyond: Path -> Sight)
    ensures var t, target, current := map[["a"] := File(false, "old")], OneFile(["a", "b"], "new"), OneFile(["a"], "old");
      TreeOk(t) && Restorable(t, target, current) && !PreflightOk(t, target, current, beyond)
  {
    var a, b: Path := ["a"], ["a", "b"];
    assert b[..1] == a;
    assert TextOf(a) == "a" && TextOf(b) == "a/b";
    LettersAreSafe(a);
    LettersAreSafe(b);
    hide GitZ.Safe, TextOf;
    Changed(a, b, beyond);
  }

  lemma Changed(a: Path, b: Path, beyond: Path -> Sight)
    requires |a| == 1 && |b| == 2 && b[..1] == a && Writable(a) && Writable(b)
    ensures var t, target, current := map[a := File(false, "old")], OneFile(b, "new"), OneFile(a, "old");
      TreeOk(t) && Restorable(t, target, current) && !PreflightOk(t, target, current, beyond)
  {
    hide Writable, GitZ.Safe, TextOf;
    var t: Tree := map[a := File(false, "old")];
    assert FileAbove(t, b) && b in OneFile(b, "new");
  }

  // ---- the whole restore ------------------------------------------------------------------------

  lemma ClearedTargets(s: Tree, t: Tree, target: Listing, current: Listing)
    requires TreeOk(s) && TreeOk(t) && Cleared(s, t, target, current) && PathsOk(target)
    ensures forall p | Written(target, p) :: Obstructed(t, p) <==>
      (BlockedAbove(s, target, current, p) || (p in s && s[p].Dir? && KeptBelow(s, target, current, p)))
    ensures forall p | Extra(target, current, p) :: p !in t
  {
    hide TreeOk, KeptBelow, BlockedAbove, Obstructed;
    forall p | Written(target, p) {
      ObstructedAfter(s, t, target, current, p);
    }
  }

  class Restorer {
    const tree: WorkTree

    constructor (tree: WorkTree)
      ensures this.tree == tree
    {
      this.tree := tree;
    }

    /** preflightRestoreAncestors */
    method AncestorsFit(target: Listing, current: Listing, p: Path) returns (ok: bool)
      requires tree.Valid() && p != []
      ensures ok <==> !BlockedAbove(tree.nodes, target, current, p)
    {
      var t := tree.nodes;
      for k := 1 to |p|
        invariant forall m | 0 < m < k && m < |p| :: p[..m] in t && t[p[..m]].Dir?
      {
        var q := p[..k];
        if q !in t {
          MissingAbove(t, p, k);
          return true;
        }
        if !t[q].Dir? {
          NothingPastLeaf(t, p, k);
          return q in current && q !in target;
        }
      }
      ok := true;
    }

    /** directoryContainsOnlyControlledExtras */
    method OnlyExtrasBelow(target: Listing, current: Listing, p: Path) returns (ok: bool)
      ensures ok <==> forall q | Leaf(tree.nodes, q) && Below(p, q) :: Extra(target, current, q)
    {
      var t := tree.nodes;
      var rest := t.Keys;
      while rest != {}
        invariant rest <= t.Keys
        invariant forall q | q in t && q !in rest && !t[q].Dir? && Below(p, q) :: Extra(target, current, q)
        decreases |rest|
      {
        var q :| q in rest;
        rest := rest - {q};
        if Below(p, q) && !t[q].Dir? && !(q in current && q !in target) {
          return false;
        }
      }
      ok := true;
    }

    /** Lstat at a path, with the walk of a directory found there. */
    method Inspect(target: Listing, current: Listing, beyond: Path -> Sight, p: Path) returns (seen: Sight)
      requires tree.Valid() && p != []
      ensures seen == Look(tree.nodes, target, current, beyond, p)
    {
      var t := tree.nodes;
      for k := 1 to |p|
        invariant forall m | 0 < m < k && m < |p| :: p[..m] in t && t[p[..m]].Dir?
      {
        var q := p[..k];
        if q !in t {
          MissingAbove(t, p, k);
          return Missing;
        }
        if !t[q].Dir? {
          NothingPastLeaf(t, p, k);
          return if t[q].File? then Failed else beyond(p);
        }
      }
      if p !in t {
        return Missing;
      }
      if !t[p].Dir? {
        return NotDirectory;
      }
      var extrasOnly := OnlyExtrasBelow(target, current, p);
      seen := Directory(!extrasOnly);
    }

    method Preflight(target: Listing, current: Listing, beyond: Path -> Sight) returns (ok: bool)
      requires tree.Valid() && PathsOk(target)
      ensures ok <==> PreflightOk(tree.nodes, target, current, beyond)
    {
      hide GitZ.Safe, TextOf, Look;
      var rest := target.Keys;
      while rest != {}
        invariant rest <= target.Keys
        invariant forall p | p in target && p !in rest :: EntryFits(tree.nodes, target, current, beyond, p)
        decreases |rest|
      {
        var p :| p in rest;
        rest := rest - {p};
        if !GitZ.Safe(TextOf(p)) || target[p].mode.Unsupported? {
          return false;
        }
        if !target[p].mode.Submodule? && target[p].blob.Unreadable? {
          return false;
        }
        ok := AncestorsFit(target, current, p);
        if !ok {
          return;
        }
        var seen := Inspect(target, current, beyond, p);
        if seen.Failed? {
          return false;
        }
        if target[p].mode.Submodule? {
          if !seen.Directory? {
            return false;
          }
        } else if seen.Directory? && seen.foreign {
          return false;
        }
      }
      rest := current.Keys;
      while rest != {}
        invariant rest <= current.Keys
        invariant forall p | p in current && p !in rest :: GitZ.Safe(TextOf(p))
        decreases |rest|
      {
        var p :| p in rest;
        rest := rest - {p};
        if !GitZ.Safe(TextOf(p)) {
          return false;
        }
      }
      ok := true;
    }

    /** applyWorktreeRestore: whatever happens no file outside both trees is touched, when it
        succeeds the target is restored, and it succeeds exactly when the tree is restorable. */
    method Apply(target: Listing, current: Listing) returns (ok: bool)
      requires tree.Valid() && PathsOk(target) && PathsOk(current) && PrefixFree(target) && PrefixFree(current)
      modifies tree
      ensures tree.Valid() && OutsideKept(old(tree.nodes), tree.nodes, target, current)
      ensures ok ==> Restored(old(tree.nodes), tree.nodes, target, current)
      ensures ok <==> Restorable(old(tree.nodes), target, current)
    {
      hide PrefixFree, PathsOk, Writable, Removable, KeptBelow, BlockedAbove, Obstructed, TreeOk, Cleared;
      ghost var was := tree.nodes;
      ok := tree.RemoveExtras(target, current);
      if !ok {
        return;
      }
      ghost var cleared := tree.nodes;
      ClearedTargets(was, cleared, target, current);
      ok := tree.WriteTargets(target);
    }

    /** Restore, up to the index and HEAD: a refused preflight changes nothing. */
    method Restore(target: Listing, current: Listing, beyond: Path -> Sight) returns (ok: bool)
      requires tree.Valid() && PathsOk(target) && PathsOk(current) && PrefixFree(target) && PrefixFree(current)
      modifies tree
      ensures tree.Valid() && OutsideKept(old(tree.nodes), tree.nodes, target, current)
      ensures !PreflightOk(old(tree.nodes), target, current, beyond) ==> tree.nodes == old(tree.nodes)
      ensures ok ==> Restored(old(tree.nodes), tree.nodes, target, current)
      ensures ok <==> PreflightOk(old(tree.nodes), target, current, beyond) && Restorable(old(tree.nodes), target, current)
    {
      hide PreflightOk, Restorable, Restored, PathsOk, PrefixFree;
      ok := Preflight(target, current, beyond);
      if ok {
        ok := Apply(target, current);
      }
    }
  }
}
