/** The board as a replay of draws, and as the outcome of "last version wins". */
module Board {
  import opened Wrappers
  import opened Domain

  /** What the apply script does to the hash: a colour is stored, no colour deletes. */
  function Write(b: BoardState, field: string, color: string): BoardState {
    if color != "" then b[field := color] else b - {field}
  }

  function Apply(b: BoardState, d: Edit): BoardState {
    Write(b, d.field, d.color)
  }

  function Replay(b: BoardState, ds: seq<Edit>): BoardState {
    if ds == [] then b else Apply(Replay(b, ds[..|ds| - 1]), ds[|ds| - 1])
  }

  lemma ReplayAppend(b: BoardState, ds: seq<Edit>, d: Edit)
    ensures Replay(b, ds + [d]) == Apply(Replay(b, ds), d)
  {
    var es := ds + [d];
    assert es[..|es| - 1] == ds;
  }

  function Cell(b: BoardState, f: string): Option<string> {
    if f in b then Some(b[f]) else None
  }

  function Effect(d: Edit): Option<string> {
    if d.color != "" then Some(d.color) else None
  }

  ghost predicate Writes(ds: seq<Edit>, f: string) {
    exists i :: 0 <= i < |ds| && ds[i].field == f
  }

  lemma SameCells(b: BoardState, c: BoardState)
    requires forall f :: Cell(b, f) == Cell(c, f)
    ensures b == c
  {
    forall f
      ensures f in b <==> f in c
      ensures f in b ==> b[f] == c[f]
    {
      assert Cell(b, f) == Cell(c, f);
    }
  }

  lemma {:induction false} ReplayConcat(b: BoardState, xs: seq<Edit>, ys: seq<Edit>)
    ensures Replay(b, xs + ys) == Replay(Replay(b, xs), ys)
  {
    if ys == [] {
      assert xs + ys == xs;
    } else {
      var zs := xs + ys;
      assert zs[..|zs| - 1] == xs + ys[..|ys| - 1];
      ReplayConcat(b, xs, ys[..|ys| - 1]);
    }
  }

  /** A written cell forgets the start; an unwritten one keeps it. */
  lemma {:induction false} ReplayCell(b: BoardState, c: BoardState, ds: seq<Edit>, f: string)
    ensures Writes(ds, f) ==> Cell(Replay(b, ds), f) == Cell(Replay(c, ds), f)
    ensures !Writes(ds, f) ==> Cell(Replay(b, ds), f) == Cell(b, f)
  {
    if ds != [] {
      var n := |ds| - 1;
      ReplayCell(b, c, ds[..n], f);
      assert ds[n].field == f || (Writes(ds, f) <==> Writes(ds[..n], f)) by {
        assert forall i :: 0 <= i < n ==> ds[..n][i] == ds[i];
        if ds[n].field != f && Writes(ds, f) {
          var i :| 0 <= i < |ds| && ds[i].field == f;
          assert ds[..n][i] == ds[i];
        }
      }
    }
  }

  /** Two boards agree after the same draws exactly when they agree on every cell
      those draws leave alone. */
  lemma SameAfter(b: BoardState, c: BoardState, ds: seq<Edit>)
    ensures Replay(b, ds) == Replay(c, ds) <==> forall f :: Writes(ds, f) || Cell(b, f) == Cell(c, f)
  {
    forall f
      ensures Cell(Replay(b, ds), f) == Cell(Replay(c, ds), f) <==> Writes(ds, f) || Cell(b, f) == Cell(c, f)
    {
      ReplayCell(b, c, ds, f);
      ReplayCell(c, b, ds, f);
    }
    if forall f :: Writes(ds, f) || Cell(b, f) == Cell(c, f) {
      SameCells(Replay(b, ds), Replay(c, ds));
    }
  }

  /** Replaying from any earlier point than the one already reached changes nothing. */
  lemma OverlapAbsorbed(b: BoardState, ds: seq<Edit>, i: nat, j: nat)
    requires i <= j <= |ds|
    ensures Replay(Replay(b, ds[..j]), ds[i..]) == Replay(b, ds)
  {
    var early := Replay(b, ds[..i]);
    assert ds[..j] == ds[..i] + ds[i..j];
    ReplayConcat(b, ds[..i], ds[i..j]);
    forall f
      ensures Writes(ds[i..], f) || Cell(early, f) == Cell(Replay(b, ds[..j]), f)
    {
      ReplayCell(early, early, ds[i..j], f);
      if Writes(ds[i..j], f) {
        var k :| 0 <= k < j - i && ds[i..j][k].field == f;
        assert ds[i..][k] == ds[i..j][k];
      }
    }
    SameAfter(early, Replay(b, ds[..j]), ds[i..]);
    assert ds == ds[..i] + ds[i..];
    ReplayConcat(b, ds[..i], ds[i..]);
  }

  // ----- last version wins ------------------------------------------------

  /** No action of `s` on the same cell carries a higher version. */
  ghost predicate Wins(s: set<Edit>, a: Edit) {
    a in s && forall o {:trigger o in s} :: o in s && o.field == a.field ==> o.version <= a.version
  }

  ghost predicate Touched(s: set<Edit>, f: string) {
    exists a {:trigger a in s} :: a in s && a.field == f
  }

  /** The board that every set of actions has, whatever order they arrived in. */
  ghost predicate IsLww(b: BoardState, s: set<Edit>) {
    && (forall a {:trigger Wins(s, a)} :: Wins(s, a) ==> Cell(b, a.field) == Effect(a))
    && (forall f {:trigger Touched(s, f)} {:trigger f in b} :: !Touched(s, f) ==> f !in b)
  }

  lemma {:induction false} SomeWinner(s: set<Edit>, f: string) returns (w: Edit)
    requires Touched(s, f)
    ensures Wins(s, w) && w.field == f
    decreases s
  {
    var a :| a in s && a.field == f;
    var rest := s - {a};
    assert forall o :: o in s <==> o == a || o in rest;
    if Touched(rest, f) {
      w := SomeWinner(rest, f);
      if w.version <= a.version {
        w := a;
      }
    } else {
      w := a;
    }
  }

  lemma LwwUnique(b: BoardState, c: BoardState, s: set<Edit>)
    requires IsLww(b, s) && IsLww(c, s)
    ensures b == c
  {
    forall f
      ensures Cell(b, f) == Cell(c, f)
    {
      if Touched(s, f) {
        var w := SomeWinner(s, f);
      }
    }
    SameCells(b, c);
  }

  ghost predicate ByVersion(es: seq<Edit>) {
    forall i, j :: 0 <= i < j < |es| ==> es[i].version <= es[j].version
  }

  ghost predicate VersionsIdentify(s: set<Edit>) {
    forall a, b :: a in s && b in s && a.version == b.version ==> a == b
  }

  ghost function SetOf<T>(xs: seq<T>): set<T> {
    set x | x in xs
  }

  /** Applying an action no older than the rest keeps last-version-wins. */
  lemma NewestApplied(b: BoardState, s: set<Edit>, e: Edit)
    requires IsLww(b, s)
    requires forall o :: o in s ==> o.version < e.version || o == e
    ensures IsLww(Apply(b, e), s + {e})
  {
    var b', s' := Apply(b, e), s + {e};
    forall a | Wins(s', a)
      ensures Cell(b', a.field) == Effect(a)
    {
      assert e in s';
      assert a.field == e.field || Wins(s, a);
    }
    forall f | !Touched(s', f)
      ensures f !in b'
    {
      assert e in s' && !Touched(s, f);
    }
  }

  /** Replaying actions sorted by version, repeats included, gives the
      last-version-wins board of the set of actions. */
  lemma {:induction false} SortedReplayIsLww(es: seq<Edit>)
    requires ByVersion(es) && VersionsIdentify(SetOf(es))
    ensures IsLww(Replay(map[], es), SetOf(es))
  {
    if es != [] {
      var n := |es| - 1;
      var e, init := es[n], es[..n];
      assert es == init + [e];
      assert SetOf(es) == SetOf(init) + {e};
      SortedReplayIsLww(init);
      forall o | o in SetOf(init)
        ensures o.version < e.version || o == e
      {
        assert o in SetOf(es) && e in SetOf(es);
        var i :| 0 <= i < n && es[i] == o;
      }
      NewestApplied(Replay(map[], init), SetOf(init), e);
    }
  }

  /** Any two version-sorted listings of the same actions replay to one board. */
  lemma SortedListingsAgree(es: seq<Edit>, fs: seq<Edit>)
    requires ByVersion(es) && ByVersion(fs)
    requires SetOf(es) == SetOf(fs) && VersionsIdentify(SetOf(es))
    ensures Replay(map[], es) == Replay(map[], fs)
  {
    SortedReplayIsLww(es);
    SortedReplayIsLww(fs);
    LwwUnique(Replay(map[], es), Replay(map[], fs), SetOf(es));
  }

  /** Dropping actions that lost their cell to a later one changes nothing. */
  lemma WinnersSuffice(b: BoardState, kept: set<Edit>, all: set<Edit>)
    requires kept <= all && forall e {:trigger Wins(all, e)} :: Wins(all, e) ==> e in kept
    requires IsLww(b, kept)
    ensures IsLww(b, all)
  {
    forall e | Wins(all, e)
      ensures Cell(b, e.field) == Effect(e)
    {
      assert Wins(kept, e);
    }
    forall f | !Touched(all, f)
      ensures f !in b
    {
      assert !Touched(kept, f);
    }
  }

  // ----- replaying by the recorded type ------------------------------------

  /** ApplyActionToState: the recorded type decides, not the colour. */
  function ApplyByType(b: BoardState, a: Edit): BoardState {
    if a.actionType == "draw" then b[a.field := a.color]
    else if a.actionType == "erase" then b - {a.field}
    else b
  }

  function ReplayByType(b: BoardState, es: seq<Edit>): BoardState {
    if es == [] then b else ApplyByType(ReplayByType(b, es[..|es| - 1]), es[|es| - 1])
  }

  predicate TypeMatchesColor(a: Edit) {
    (a.actionType == "draw") == (a.color != "")
  }

  predicate ValidType(a: Edit) {
    a.actionType == "draw" || a.actionType == "erase"
  }

  /** Position `i` holds the last action of `es` on its cell. */
  ghost predicate LastOnCell(es: seq<Edit>, i: nat)
    requires i < |es|
  {
    forall j :: i < j < |es| ==> es[j].field != es[i].field
  }

  ghost predicate LastMatches(es: seq<Edit>, f: string) {
    forall i :: 0 <= i < |es| && es[i].field == f && LastOnCell(es, i) ==> TypeMatchesColor(es[i])
  }

  /** On one cell, the two replays agree unless the last action there disagrees
      with itself. */
  lemma {:induction false} ByTypeCell(es: seq<Edit>, f: string)
    requires forall e :: e in es ==> ValidType(e)
    ensures Cell(ReplayByType(map[], es), f) == Cell(Replay(map[], es), f) <==> LastMatches(es, f)
  {
    if es != [] {
      var n := |es| - 1;
      var init := es[..n];
      assert ValidType(es[n]);
      if es[n].field == f {
        assert LastOnCell(es, n);
      } else {
        ByTypeCell(init, f);
        forall i | 0 <= i < n && es[i].field == f
          ensures LastOnCell(es, i) <==> LastOnCell(init, i)
        {
          assert forall j :: i < j < n ==> es[j] == init[j];
        }
      }
    }
  }

  /** Replaying recorded actions gives the script's board exactly when, on every
      cell, the last action's recorded type agrees with its colour. */
  lemma ByTypeAgreesIff(es: seq<Edit>)
    requires forall e :: e in es ==> ValidType(e)
    ensures ReplayByType(map[], es) == Replay(map[], es) <==> forall f :: LastMatches(es, f)
  {
    var b, c := ReplayByType(map[], es), Replay(map[], es);
    forall f
      ensures Cell(b, f) == Cell(c, f) <==> LastMatches(es, f)
    {
      ByTypeCell(es, f);
    }
    if forall f :: LastMatches(es, f) {
      SameCells(b, c);
    }
  }
}
