/**
 * `computeUpdateMask` (functions/agent-backend/App.js): the recursive structural diff of a
 * deployed resource definition against its desired definition.  Paths are kept as key lists;
 * `Dotted` renders one as the dotted string the backend builds.
 */
module UpdateMask {
  import opened Wrappers
  import opened Json

  type Path = seq<string>

  datatype Mask<P> = Mask(added: seq<P>, removed: seq<P>, modified: seq<P>)
  {
    predicate IsEmpty() { added == [] && removed == [] && modified == [] }
  }

  function NoChange(): Mask<Path> { Mask([], [], []) }

  function Concat(a: Mask<Path>, b: Mask<Path>): Mask<Path>
  {
    Mask(a.added + b.added, a.removed + b.removed, a.modified + b.modified)
  }

  /** `p` lies strictly below `parent`. */
  predicate Below(parent: Path, p: Path)
  {
    |p| > |parent| && p[..|parent|] == parent
  }

  /** The value under key `k` of `v`, read as `v[k]` reads it. */
  function Child(v: Json, k: string): Json
    requires k in Keys(Entries(v))
  {
    Get(Entries(v), k).value
  }

  /** A path one key below `parent` is `parent` extended by that key. */
  lemma OneBelow(parent: Path, p: Path)
    requires |p| == |parent| + 1 && p[..|parent|] == parent
    ensures p == parent + [p[|parent|]]
  {
  }

  /** Paths below `parent + [k]` are below `parent`. */
  lemma BelowChild(parent: Path, k: string, p: Path)
    requires Below(parent + [k], p)
    ensures Below(parent, p) && p[|parent|] == k
  {
    assert p[..|parent|] == p[..|parent| + 1][..|parent|];
  }

  /** The paths `parent.k` for the keys `k` of `ks` missing from `others`, in the order of `ks`. */
  function Extend(parent: Path, ks: seq<string>, others: seq<string>): (r: seq<Path>)
    ensures forall p {:trigger p in r} :: p in r <==>
              |p| == |parent| + 1 && p[..|parent|] == parent && p[|parent|] in ks && p[|parent|] !in others
  {
    if ks == [] then []
    else
      var rest := Extend(parent, ks[1..], others);
      if ks[0] in others then rest
      else
        var p0 := parent + [ks[0]];
        assert p0[..|parent|] == parent;
        forall p | |p| == |parent| + 1 && p[..|parent|] == parent && p[|parent|] == ks[0]
          ensures p == p0
        {
          OneBelow(parent, p);
        }
        [p0] + rest
  }

  /**
   * computeUpdateMask(curr, next, parent): keys only in `next` are added, keys only in
   * `curr` are removed, keys in both are compared: an object held in `curr` is walked
   * recursively, anything else (a scalar, or an array compared by its serialisation) is
   * modified when it differs.
   */
  function ComputeUpdateMask(curr: Json, next: Json, parent: Path): (r: Mask<Path>)
    decreases curr, 1
  {
    var ck := Keys(Entries(curr));
    var nk := Keys(Entries(next));
    var nested := Walk(curr, next, nk, parent);
    Mask(Extend(parent, nk, ck) + nested.added, Extend(parent, ck, nk) + nested.removed, nested.modified)
  }

  /** The `forEach` over the keys of `next` that `curr` also has, from key list `ks` on. */
  function Walk(curr: Json, next: Json, ks: seq<string>, parent: Path): (r: Mask<Path>)
    requires forall k :: k in ks ==> k in Keys(Entries(next))
    decreases curr, 0, |ks|
  {
    if ks == [] then NoChange()
    else
      var k := ks[0];
      var rest := Walk(curr, next, ks[1..], parent);
      if k !in Keys(Entries(curr)) then rest
      else Concat(KeyMask(curr, next, k, parent), rest)
  }

  /** What one key present on both sides contributes to the mask. */
  function KeyMask(curr: Json, next: Json, k: string, parent: Path): (r: Mask<Path>)
    requires k in Keys(Entries(curr)) && k in Keys(Entries(next))
    decreases curr, 0, 0
  {
    var c := Child(curr, k);
    var n := Child(next, k);
    if c.JObj? then
      GetEntrySmaller(curr, k);
      ComputeUpdateMask(c, n, parent + [k])
    else if c != n then
      Mask([], [], [parent + [k]])
    else NoChange()
  }

  /** The resource needs an update step: some path was added, removed or modified. */
  predicate NeedsUpdate(curr: Json, next: Json)
  {
    !ComputeUpdateMask(curr, next, []).IsEmpty()
  }

  // ---------------------------------------------------------------------------------
  // Reference definition: which relative paths the diff is meant to report.

  datatype Kind = Added | Removed | Modified

  function Pick<P>(m: Mask<P>, kind: Kind): seq<P>
  {
    match kind
    case Added => m.added
    case Removed => m.removed
    case Modified => m.modified
  }

  /**
   * At the last key of a path: an added key exists in `next` only, a removed key in `curr`
   * only, and a modified key on both sides with two different values, `curr`'s not an object.
   */
  predicate LeafChange(kind: Kind, curr: Json, next: Json, k: string)
  {
    var inCurr := k in Keys(Entries(curr));
    var inNext := k in Keys(Entries(next));
    match kind
    case Added => inNext && !inCurr
    case Removed => inCurr && !inNext
    case Modified => inCurr && inNext && !Child(curr, k).JObj? && Child(curr, k) != Child(next, k)
  }

  /** Relative path `q` reports a change of `kind`: every key above the last names an object in `curr` and exists in `next`. */
  ghost predicate ChangedAt(kind: Kind, curr: Json, next: Json, q: Path)
    decreases q
  {
    |q| >= 1 &&
    if |q| == 1 then LeafChange(kind, curr, next, q[0])
    else
      q[0] in Keys(Entries(curr)) && q[0] in Keys(Entries(next)) && Child(curr, q[0]).JObj? &&
      ChangedAt(kind, Child(curr, q[0]), Child(next, q[0]), q[1..])
  }

  // ---------------------------------------------------------------------------------
  // The diff reports exactly the paths of the reference definition.

  /** The relative path of `p` below `parent`, split at its first key. */
  lemma RelativeSplit(parent: Path, k: string, p: Path)
    requires Below(parent, p) && p[|parent|] == k
    ensures p[|parent|..][0] == k
    ensures |p| >= |parent| + 2 ==> Below(parent + [k], p) && p[|parent| + 1..] == p[|parent|..][1..]
  {
    if |p| >= |parent| + 2 {
      assert p[..|parent| + 1] == p[..|parent|] + [k];
    }
  }

  lemma MaskParts(curr: Json, next: Json, parent: Path)
    ensures var ck := Keys(Entries(curr));
            var nk := Keys(Entries(next));
            var w := Walk(curr, next, nk, parent);
            ComputeUpdateMask(curr, next, parent) ==
              Mask(Extend(parent, nk, ck) + w.added, Extend(parent, ck, nk) + w.removed, w.modified)
  {
  }

  /** The keys listed directly under `parent`: the added or removed keys of this level. */
  function Direct(kind: Kind, curr: Json, next: Json, parent: Path): seq<Path>
  {
    var ck := Keys(Entries(curr));
    var nk := Keys(Entries(next));
    match kind
    case Added => Extend(parent, nk, ck)
    case Removed => Extend(parent, ck, nk)
    case Modified => []
  }

  lemma ChangedAtOne(kind: Kind, curr: Json, next: Json, q: Path)
    requires |q| == 1
    ensures ChangedAt(kind, curr, next, q) == LeafChange(kind, curr, next, q[0])
  {
  }

  lemma DirectMeaning(kind: Kind, curr: Json, next: Json, parent: Path, p: Path)
    ensures p in Direct(kind, curr, next, parent) <==>
              Below(parent, p) && |p| == |parent| + 1 && ChangedAt(kind, curr, next, p[|parent|..]) &&
              kind != Modified
  {
    var ck := Keys(Entries(curr));
    var nk := Keys(Entries(next));
    var below := Below(parent, p) && |p| == |parent| + 1;
    if below {
      var q := p[|parent|..];
      assert q[0] == p[|parent|];
      ChangedAtOne(kind, curr, next, q);
    }
    match kind
    case Added =>
      assert p in Extend(parent, nk, ck) <==> below && p[|parent|] in nk && p[|parent|] !in ck;
    case Removed =>
      assert p in Extend(parent, ck, nk) <==> below && p[|parent|] in ck && p[|parent|] !in nk;
    case Modified =>
  }

  lemma {:induction false} MaskMeaning(kind: Kind, curr: Json, next: Json, parent: Path, p: Path)
    ensures p in Pick(ComputeUpdateMask(curr, next, parent), kind) <==>
              Below(parent, p) && ChangedAt(kind, curr, next, p[|parent|..])
    decreases curr, 2
  {
    var nk := Keys(Entries(next));
    var w := Walk(curr, next, nk, parent);
    WalkMeaning(kind, curr, next, nk, parent, p);
    DirectMeaning(kind, curr, next, parent, p);
    MaskParts(curr, next, parent);
    assert Pick(ComputeUpdateMask(curr, next, parent), kind) == Direct(kind, curr, next, parent) + Pick(w, kind);
    if Below(parent, p) && |p| >= |parent| + 2 && ChangedAt(kind, curr, next, p[|parent|..]) {
      assert p[|parent|..][0] in nk;
    }
  }

  lemma {:induction false} WalkMeaning(kind: Kind, curr: Json, next: Json, ks: seq<string>, parent: Path, p: Path)
    requires forall k :: k in ks ==> k in Keys(Entries(next))
    ensures p in Pick(Walk(curr, next, ks, parent), kind) <==>
              Below(parent, p) && p[|parent|] in ks && ChangedAt(kind, curr, next, p[|parent|..]) &&
              (kind == Modified || |p| >= |parent| + 2)
    decreases curr, 1, |ks|
  {
    if ks != [] {
      var k := ks[0];
      WalkMeaning(kind, curr, next, ks[1..], parent, p);
      assert forall x :: x in ks <==> x == k || x in ks[1..];
      if k in Keys(Entries(curr)) {
        KeyMaskMeaning(kind, curr, next, k, parent, p);
      } else if Below(parent, p) && p[|parent|] == k {
        RelativeSplit(parent, k, p);
      }
    }
  }

  lemma KeyMaskObject(curr: Json, next: Json, k: string, parent: Path)
    requires k in Keys(Entries(curr)) && k in Keys(Entries(next)) && Child(curr, k).JObj?
    ensures KeyMask(curr, next, k, parent) == ComputeUpdateMask(Child(curr, k), Child(next, k), parent + [k])
  {
  }

  lemma KeyMaskLeaf(curr: Json, next: Json, k: string, parent: Path)
    requires k in Keys(Entries(curr)) && k in Keys(Entries(next)) && !Child(curr, k).JObj?
    ensures KeyMask(curr, next, k, parent) ==
              if Child(curr, k) != Child(next, k) then Mask([], [], [parent + [k]]) else NoChange()
  {
  }

  lemma {:induction false} KeyMaskMeaning(kind: Kind, curr: Json, next: Json, k: string, parent: Path, p: Path)
    requires k in Keys(Entries(curr)) && k in Keys(Entries(next))
    ensures p in Pick(KeyMask(curr, next, k, parent), kind) <==>
              Below(parent, p) && p[|parent|] == k && ChangedAt(kind, curr, next, p[|parent|..]) &&
              (kind == Modified || |p| >= |parent| + 2)
    decreases curr, 0, 1
  {
    if Child(curr, k).JObj? {
      KeyObjectMeaning(kind, curr, next, k, parent, p);
    } else {
      KeyMaskLeaf(curr, next, k, parent);
      LeafKeyMeaning(kind, curr, next, k, parent, p);
    }
  }

  lemma {:induction false} KeyObjectMeaning(kind: Kind, curr: Json, next: Json, k: string, parent: Path, p: Path)
    requires k in Keys(Entries(curr)) && k in Keys(Entries(next)) && Child(curr, k).JObj?
    ensures p in Pick(KeyMask(curr, next, k, parent), kind) <==>
              Below(parent, p) && p[|parent|] == k && ChangedAt(kind, curr, next, p[|parent|..]) &&
              (kind == Modified || |p| >= |parent| + 2)
    decreases curr, 0, 0
  {
    KeyMaskObject(curr, next, k, parent);
    GetEntrySmaller(curr, k);
    MaskMeaning(kind, Child(curr, k), Child(next, k), parent + [k], p);
    ObjectKeyMeaning(kind, curr, next, k, parent, p);
  }

  /** Under an object-valued key, the nested diff's paths are exactly the changes below that key. */
  lemma ObjectKeyMeaning(kind: Kind, curr: Json, next: Json, k: string, parent: Path, p: Path)
    requires k in Keys(Entries(curr)) && k in Keys(Entries(next)) && Child(curr, k).JObj?
    ensures (Below(parent + [k], p) && ChangedAt(kind, Child(curr, k), Child(next, k), p[|parent| + 1..])) <==>
            (Below(parent, p) && p[|parent|] == k && ChangedAt(kind, curr, next, p[|parent|..]) &&
             (kind == Modified || |p| >= |parent| + 2))
  {
    if Below(parent + [k], p) {
      BelowChild(parent, k, p);
      RelativeSplit(parent, k, p);
    }
    if Below(parent, p) && p[|parent|] == k {
      RelativeSplit(parent, k, p);
      var q := p[|parent|..];
      if |q| == 1 {
        assert ChangedAt(kind, curr, next, q) <==> LeafChange(kind, curr, next, k);
      }
    }
  }

  /** Under a key holding no object, only the key itself can be reported, and only as modified. */
  lemma LeafKeyMeaning(kind: Kind, curr: Json, next: Json, k: string, parent: Path, p: Path)
    requires k in Keys(Entries(curr)) && k in Keys(Entries(next)) && !Child(curr, k).JObj?
    ensures p in Pick(if Child(curr, k) != Child(next, k) then Mask([], [], [parent + [k]]) else NoChange(), kind) <==>
            (Below(parent, p) && p[|parent|] == k && ChangedAt(kind, curr, next, p[|parent|..]) &&
             (kind == Modified || |p| >= |parent| + 2))
  {
    if Below(parent, p) && p[|parent|] == k {
      RelativeSplit(parent, k, p);
      var q := p[|parent|..];
      if |p| == |parent| + 1 {
        OneBelow(parent, p);
        assert q == [k];
        assert ChangedAt(kind, curr, next, q) <==> LeafChange(kind, curr, next, k);
      } else {
        assert !ChangedAt(kind, curr, next, q);
      }
    }
    if p == parent + [k] {
      assert p[..|parent|] == parent;
      assert p[|parent|..] == [k];
    }
  }

  // ---------------------------------------------------------------------------------
  // Consequences.

  lemma {:induction false} NoChangeAtSelf(kind: Kind, x: Json, q: Path)
    ensures !ChangedAt(kind, x, x, q)
    decreases q
  {
    if |q| > 1 && q[0] in Keys(Entries(x)) {
      NoChangeAtSelf(kind, Child(x, q[0]), q[1..]);
    }
  }

  /** `computeUpdateMask(x, x)` reports nothing, at any depth. */
  lemma MaskOfSelf(x: Json, parent: Path)
    ensures ComputeUpdateMask(x, x, parent) == NoChange()
  {
    var m := ComputeUpdateMask(x, x, parent);
    forall kind: Kind ensures Pick(m, kind) == [] {
      if Pick(m, kind) != [] {
        var p := Pick(m, kind)[0];
        MaskMeaning(kind, x, x, parent, p);
        NoChangeAtSelf(kind, x, p[|parent|..]);
      }
    }
    assert Pick(m, Added) == [] && Pick(m, Removed) == [] && Pick(m, Modified) == [];
  }

  /** A reported path is a change of the reference definition. */
  lemma ReportedIsChange(curr: Json, next: Json, kind: Kind)
    requires Pick(ComputeUpdateMask(curr, next, []), kind) != []
    ensures exists q :: ChangedAt(kind, curr, next, q)
  {
    var p := Pick(ComputeUpdateMask(curr, next, []), kind)[0];
    MaskMeaning(kind, curr, next, [], p);
    assert p[0..] == p;
  }

  /** A change of the reference definition is reported. */
  lemma ChangeIsReported(curr: Json, next: Json, kind: Kind, q: Path)
    requires ChangedAt(kind, curr, next, q)
    ensures Pick(ComputeUpdateMask(curr, next, []), kind) != []
  {
    MaskMeaning(kind, curr, next, [], q);
    assert q[0..] == q;
  }

  /** A resource needs an update exactly when some path of it was added, removed or modified. */
  lemma NeedsUpdateMeaning(curr: Json, next: Json)
    ensures NeedsUpdate(curr, next) <==> exists kind, q :: ChangedAt(kind, curr, next, q)
  {
    var m := ComputeUpdateMask(curr, next, []);
    assert NeedsUpdate(curr, next) <==> Pick(m, Added) != [] || Pick(m, Removed) != [] || Pick(m, Modified) != [];
    if Pick(m, Added) != [] { ReportedIsChange(curr, next, Added); }
    if Pick(m, Removed) != [] { ReportedIsChange(curr, next, Removed); }
    if Pick(m, Modified) != [] { ReportedIsChange(curr, next, Modified); }
    forall kind, q | ChangedAt(kind, curr, next, q) ensures NeedsUpdate(curr, next) {
      ChangeIsReported(curr, next, kind, q);
    }
  }

  // ---------------------------------------------------------------------------------
  // Rendering paths as the dotted strings of the source.

  /** `parent ? parent + '.' + k : k`, applied key by key (an empty parent string counts as none). */
  function Dotted(p: Path): string
  {
    if p == [] then ""
    else
      var above := Dotted(p[..|p| - 1]);
      if above == "" then p[|p| - 1] else above + "." + p[|p| - 1]
  }

  function DottedAll(ps: seq<Path>): (r: seq<string>)
    ensures |r| == |ps| && forall i :: 0 <= i < |ps| ==> r[i] == Dotted(ps[i])
  {
    seq(|ps|, i requires 0 <= i < |ps| => Dotted(ps[i]))
  }

  /** `s.split('.')`: the pieces between the dots. */
  function Undot(s: string): (r: seq<string>)
    ensures |r| >= 1
  {
    if s == [] then [""]
    else
      var rest := Undot(s[1..]);
      if s[0] == '.' then [""] + rest else [[s[0]] + rest[0]] + rest[1..]
  }

  /** A key the dotted rendering keeps apart from its neighbours: not empty and free of dots. */
  predicate PlainKey(k: string)
  {
    k != "" && '.' !in k
  }

  lemma {:induction false} UndotPlain(k: string)
    requires '.' !in k
    ensures Undot(k) == [k]
  {
    if k != [] {
      assert '.' !in k[1..] by { assert forall c :: c in k[1..] ==> c in k; }
      UndotPlain(k[1..]);
      assert [k[0]] + k[1..] == k;
    }
  }

  lemma {:induction false} UndotAtDot(a: string, b: string)
    ensures Undot(a + "." + b) == Undot(a) + Undot(b)
  {
    if a == [] {
      assert a + "." + b == ['.'] + b;
      assert (['.'] + b)[1..] == b;
    } else {
      var s := a + "." + b;
      assert s[0] == a[0];
      assert s[1..] == a[1..] + "." + b;
      UndotAtDot(a[1..], b);
    }
  }

  /**
   * Splitting a rendered path at its dots gives back its keys, when every key is plain: so
   * distinct paths of plain keys are reported as distinct strings.
   */
  lemma {:induction false} DottedRoundTrip(p: Path)
    requires p != [] && forall i :: 0 <= i < |p| ==> PlainKey(p[i])
    ensures Undot(Dotted(p)) == p
    ensures Dotted(p) != ""
    decreases |p|
  {
    var last := p[|p| - 1];
    UndotPlain(last);
    if |p| > 1 {
      var init := p[..|p| - 1];
      DottedRoundTrip(init);
      UndotAtDot(Dotted(init), last);
      assert init + [last] == p;
    }
  }

  /** Every path of a mask of plain keys is read back from the string reported for it. */
  lemma DottedAllRoundTrip(ps: seq<Path>)
    requires forall i :: 0 <= i < |ps| ==> ps[i] != [] && forall j :: 0 <= j < |ps[i]| ==> PlainKey(ps[i][j])
    ensures forall i :: 0 <= i < |ps| ==> Undot(DottedAll(ps)[i]) == ps[i]
    ensures forall i, j :: 0 <= i < |ps| && 0 <= j < |ps| && ps[i] != ps[j] ==> DottedAll(ps)[i] != DottedAll(ps)[j]
  {
    forall i | 0 <= i < |ps| ensures Undot(DottedAll(ps)[i]) == ps[i] {
      DottedRoundTrip(ps[i]);
    }
  }

  /** The mask with its paths rendered as the source returns them. */
  function DottedMask(m: Mask<Path>): Mask<string>
  {
    Mask(DottedAll(m.added), DottedAll(m.removed), DottedAll(m.modified))
  }

  // `{a:1, b:{c:2}}` against `{a:1, b:{c:3, d:4}}`, worked out level by level.  The
  // documents are parameters pinned by `requires`, so that the verifier does not unfold the
  // recursive diff on the literals by itself.

  const InnerCurr := JObj([("c", JNum(2))])
  const InnerNext := JObj([("c", JNum(3)), ("d", JNum(4))])
  const OuterCurr := JObj([("a", JNum(1)), ("b", InnerCurr)])
  const OuterNext := JObj([("a", JNum(1)), ("b", InnerNext)])

  lemma InnerKeyC(c: Json, n: Json)
    requires c == InnerCurr && n == InnerNext
    ensures Keys(Entries(c)) == ["c"] && Keys(Entries(n)) == ["c", "d"]
    ensures KeyMask(c, n, "c", ["b"]) == Mask([], [], [["b", "c"]])
  {
    assert Keys(Entries(c)) == ["c"];
    assert Keys(Entries(n)) == ["c", "d"];
    assert Child(c, "c") == JNum(2);
    assert Child(n, "c") == JNum(3);
    KeyMaskLeaf(c, n, "c", ["b"]);
    assert ["b"] + ["c"] == ["b", "c"];
  }

  /** `{c:2}` against `{c:3, d:4}` below `b`: `b.d` added, `b.c` modified. */
  lemma InnerExample(c: Json, n: Json)
    requires c == InnerCurr && n == InnerNext
    ensures ComputeUpdateMask(c, n, ["b"]) == Mask([["b", "d"]], [], [["b", "c"]])
  {
    InnerKeyC(c, n);
    assert Walk(c, n, ["d"], ["b"]) == NoChange();
    assert Walk(c, n, ["c", "d"], ["b"]) == Mask([], [], [["b", "c"]]);
    assert ["c", "d"][1..] == ["d"];
    assert ["d"][1..] == [];
    assert Extend(["b"], [], ["c"]) == [];
    assert ["b"] + ["d"] == ["b", "d"];
    assert Extend(["b"], ["d"], ["c"]) == [["b", "d"]];
    assert Extend(["b"], ["c", "d"], ["c"]) == [["b", "d"]];
    assert Extend(["b"], ["c"], ["c", "d"]) == [];
    MaskParts(c, n, ["b"]);
  }

  lemma OuterKeyMasks(c: Json, n: Json)
    requires c == OuterCurr && n == OuterNext
    ensures Keys(Entries(c)) == ["a", "b"] && Keys(Entries(n)) == ["a", "b"]
    ensures KeyMask(c, n, "a", []) == NoChange()
    ensures KeyMask(c, n, "b", []) == Mask([["b", "d"]], [], [["b", "c"]])
  {
    assert Keys(Entries(c)) == ["a", "b"];
    assert Keys(Entries(n)) == ["a", "b"];
    assert Child(c, "a") == JNum(1) == Child(n, "a");
    KeyMaskLeaf(c, n, "a", []);
    assert Child(c, "b") == InnerCurr && Child(n, "b") == InnerNext;
    KeyMaskObject(c, n, "b", []);
    assert [] + ["b"] == ["b"];
    InnerExample(Child(c, "b"), Child(n, "b"));
  }

  lemma OuterExample(c: Json, n: Json)
    requires c == OuterCurr && n == OuterNext
    ensures ComputeUpdateMask(c, n, []) == Mask([["b", "d"]], [], [["b", "c"]])
  {
    OuterKeyMasks(c, n);
    assert Walk(c, n, ["b"], []) == Mask([["b", "d"]], [], [["b", "c"]]);
    assert Walk(c, n, ["a", "b"], []) == Mask([["b", "d"]], [], [["b", "c"]]);
    assert Extend([], ["a", "b"], ["a", "b"]) == [];
    MaskParts(c, n, []);
  }

  /** `{a:1, b:{c:2}}` against `{a:1, b:{c:3, d:4}}`: `b.d` added, `b.c` modified, nothing removed. */
  lemma Example(c: Json, n: Json)
    requires c == OuterCurr && n == OuterNext
    ensures DottedMask(ComputeUpdateMask(c, n, [])) == Mask(["b.d"], [], ["b.c"])
  {
    OuterExample(c, n);
    assert Dotted(["b"]) == "b";
    assert Dotted(["b", "d"]) == "b.d";
    assert Dotted(["b", "c"]) == "b.c";
    assert DottedAll([["b", "d"]]) == ["b.d"];
    assert DottedAll([["b", "c"]]) == ["b.c"];
  }
}
