/** Encoding a session's entries into rows: the loop of jsonlStore.Write in transcript/jsonl.go that leaves out the
    entries the encoder has no row for and links their children past them. */
module WriteRows {
  import opened Options
  import opened AssignIds

  /** What the encoder answers; an empty row is no row. */
  datatype Encoded = Row(bytes: string) | Failed

  type Encoder = Entry -> Encoded

  /** Entry i was left out: the write made it, it has an id to be linked by, and it got no row. */
  predicate Dropped(es: seq<Entry>, kept: seq<bool>, i: nat)
    requires i < |es| && i < |kept|
  {
    es[i].raw.None? && es[i].id != "" && !kept[i]
  }

  /** The latest entry before n that was left out and has the name p; -1 is none. */
  function Latest(es: seq<Entry>, kept: seq<bool>, p: string, n: nat): (j: int)
    requires n <= |es| && n <= |kept|
    ensures -1 <= j < n
    ensures j >= 0 ==> Dropped(es, kept, j) && es[j].id == p
    ensures forall i :: j < i < n && Dropped(es, kept, i) ==> es[i].id != p
  {
    if n == 0 then -1
    else if Dropped(es, kept, n - 1) && es[n - 1].id == p then n - 1
    else Latest(es, kept, p, n - 1)
  }

  function Rank(es: seq<Entry>, kept: seq<bool>, p: string, n: nat): nat
    requires n <= |es| && n <= |kept|
  {
    var j := Latest(es, kept, p, n);
    if j < 0 then 0 else n - j
  }

  /** The name reached from p by the links of entries left out before n: an entry left out stands for the name its own
      link had reached when it was. None is going round in circles, through an entry that had become its own parent. */
  function Reached(es: seq<Entry>, kept: seq<bool>, p: string, n: nat): (r: Option<string>)
    requires n <= |es| && n <= |kept|
    ensures r.Some? ==> Latest(es, kept, r.value, n) == -1
    decreases n, Rank(es, kept, p, n)
  {
    var j := Latest(es, kept, p, n);
    if j < 0 then Some(p)
    else
      var up := Reached(es, kept, es[j].parent, j);
      if up.None? || up.value == p then None
      else
        LaterOrNone(es, kept, up.value, j, n);
        Reached(es, kept, up.value, n)
  }

  lemma LaterOrNone(es: seq<Entry>, kept: seq<bool>, p: string, j: nat, n: nat)
    requires j < n <= |es| && n <= |kept| && Latest(es, kept, p, j) == -1
    requires es[j].id != p
    ensures Latest(es, kept, p, n) == -1 || Latest(es, kept, p, n) > j
  {
  }

  /** Entry i as the encoder is given it. */
  function Passed(es: seq<Entry>, kept: seq<bool>, i: nat): Entry
    requires i < |es| && i <= |kept|
  {
    var q := Reached(es, kept, es[i].parent, i);
    es[i].(parent := if q.Some? then q.value else es[i].parent)
  }

  function RowFor(encode: Encoder, es: seq<Entry>, kept: seq<bool>, i: nat): Encoded
    requires i < |es| && i <= |kept|
  {
    if es[i].raw.Some? then Row(es[i].raw.value) else encode(Passed(es, kept, i))
  }

  /** Which of the first n entries get a row. */
  function Kept(encode: Encoder, es: seq<Entry>, n: nat): (kept: seq<bool>)
    requires n <= |es|
    ensures |kept| == n
  {
    if n == 0 then []
    else
      var before := Kept(encode, es, n - 1);
      before + [RowFor(encode, es, before, n - 1) != Row("")]
  }

  /** The rows of the first n entries, or None when the encoder fails on one. */
  function Written(encode: Encoder, es: seq<Entry>, n: nat): Option<seq<string>>
    requires n <= |es|
  {
    if n == 0 then Some([])
    else
      var before, row := Written(encode, es, n - 1), RowFor(encode, es, Kept(encode, es, n - 1), n - 1);
      if before.None? || row.Failed? then None
      else Some(before.value + if row.bytes == "" then [] else [row.bytes])
  }

  /** Every entry the loop comes to reaches a name. */
  predicate LinksEnd(encode: Encoder, es: seq<Entry>) {
    forall i :: 0 <= i < |es| && Written(encode, es, i).Some? ==>
                  Reached(es, Kept(encode, es, i), es[i].parent, i).Some?
  }

  lemma {:induction false} LatestSame(es: seq<Entry>, kept: seq<bool>, more: seq<bool>, p: string, n: nat)
    requires n <= |es| && n <= |kept| && n <= |more| && kept[..n] == more[..n]
    ensures Latest(es, kept, p, n) == Latest(es, more, p, n)
  {
    if n > 0 {
      assert kept[n - 1] == kept[..n][n - 1] == more[n - 1];
      assert kept[..n - 1] == kept[..n][..n - 1] == more[..n - 1];
      LatestSame(es, kept, more, p, n - 1);
    }
  }

  lemma {:induction false} ReachedSame(es: seq<Entry>, kept: seq<bool>, more: seq<bool>, p: string, n: nat)
    requires n <= |es| && n <= |kept| && n <= |more| && kept[..n] == more[..n]
    ensures Reached(es, kept, p, n) == Reached(es, more, p, n)
    decreases n, Rank(es, kept, p, n)
  {
    LatestSame(es, kept, more, p, n);
    var j := Latest(es, kept, p, n);
    if j >= 0 {
      assert kept[..j] == kept[..n][..j] == more[..j];
      ReachedSame(es, kept, more, es[j].parent, j);
      var up := Reached(es, kept, es[j].parent, j);
      if up.Some? && up.value != p {
        LaterOrNone(es, kept, up.value, j, n);
        ReachedSame(es, kept, more, up.value, n);
      }
    }
  }

  lemma {:induction false} KeptPrefix(encode: Encoder, es: seq<Entry>, n: nat, i: nat)
    requires i <= n <= |es|
    ensures Kept(encode, es, n)[..i] == Kept(encode, es, i)
  {
    if i < n {
      KeptPrefix(encode, es, n - 1, i);
      assert Kept(encode, es, n)[..i] == Kept(encode, es, n - 1)[..i];
    }
  }

  /** What an entry is passed with can be read off the whole write. */
  lemma PassedInTheEnd(encode: Encoder, es: seq<Entry>, i: nat)
    requires i < |es|
    ensures Passed(es, Kept(encode, es, i), i) == Passed(es, Kept(encode, es, |es|), i)
    ensures Reached(es, Kept(encode, es, i), es[i].parent, i) == Reached(es, Kept(encode, es, |es|), es[i].parent, i)
    ensures Kept(encode, es, |es|)[i] == (RowFor(encode, es, Kept(encode, es, |es|), i) != Row(""))
  {
    KeptPrefix(encode, es, |es|, i);
    KeptPrefix(encode, es, |es|, i + 1);
    ReachedSame(es, Kept(encode, es, i), Kept(encode, es, |es|), es[i].parent, i);
    assert Kept(encode, es, |es|)[i] == Kept(encode, es, |es|)[..i + 1][i];
  }

  // The map the loop keeps.

  /** dropped after n entries. */
  function DroppedMap(es: seq<Entry>, kept: seq<bool>, n: nat): map<string, string>
    requires n <= |es| && n <= |kept|
  {
    if n == 0 then map[]
    else
      var m := DroppedMap(es, kept, n - 1);
      if Dropped(es, kept, n - 1) then m[es[n - 1].id := Passed(es, kept, n - 1).parent] else m
  }

  /** Its keys are the names left out, each with what its latest entry was passed with. */
  lemma {:induction false} DroppedMapIs(es: seq<Entry>, kept: seq<bool>, n: nat)
    requires n <= |es| && n <= |kept|
    ensures forall p :: p in DroppedMap(es, kept, n) <==> Latest(es, kept, p, n) >= 0
    ensures forall p <- DroppedMap(es, kept, n) ::
              DroppedMap(es, kept, n)[p] == Passed(es, kept, Latest(es, kept, p, n)).parent
  {
    if n > 0 {
      DroppedMapIs(es, kept, n - 1);
      if Dropped(es, kept, n - 1) {
        var id := es[n - 1].id;
        forall p ensures Latest(es, kept, p, n) == if p == id then n - 1 else Latest(es, kept, p, n - 1) {
        }
      }
    }
  }

  /** Every entry left out before n had reached a name: the loop came this far. */
  ghost predicate CameTo(es: seq<Entry>, kept: seq<bool>, n: nat)
    requires n <= |es| && n <= |kept|
  {
    forall j :: 0 <= j < n && Dropped(es, kept, j) ==> Reached(es, kept, es[j].parent, j).Some?
  }

  /** Where the inner loop stands after k rounds from the name p. */
  function Chase(m: map<string, string>, p: string, k: nat): string
    decreases k
  {
    if k == 0 || p !in m then p else Chase(m, m[p], k - 1)
  }

  lemma {:induction false} ChaseArrives(es: seq<Entry>, kept: seq<bool>, p: string, n: nat) returns (k: nat)
    requires n <= |es| && n <= |kept| && Reached(es, kept, p, n).Some?
    ensures Chase(DroppedMap(es, kept, n), p, k) == Reached(es, kept, p, n).value
    ensures Reached(es, kept, p, n).value !in DroppedMap(es, kept, n)
    decreases n, Rank(es, kept, p, n)
  {
    DroppedMapIs(es, kept, n);
    var j := Latest(es, kept, p, n);
    k := 0;
    if j >= 0 {
      var up := Reached(es, kept, es[j].parent, j);
      LaterOrNone(es, kept, up.value, j, n);
      var rest := ChaseArrives(es, kept, up.value, n);
      k := rest + 1;
    }
  }

  lemma {:induction false} ChaseGoesOn(es: seq<Entry>, kept: seq<bool>, p: string, n: nat, k: nat)
    requires n <= |es| && n <= |kept| && CameTo(es, kept, n) && Reached(es, kept, p, n).None?
    ensures Chase(DroppedMap(es, kept, n), p, k) in DroppedMap(es, kept, n)
    decreases k
  {
    DroppedMapIs(es, kept, n);
    var j := Latest(es, kept, p, n);
    if k > 0 {
      var up := Reached(es, kept, es[j].parent, j);
      ChaseGoesOn(es, kept, up.value, n, k - 1);
    }
  }

  /** Exactly when the inner loop of Write ends at an entry it comes to, whatever the session and the encoder: when the
      entry's link reaches a name through the links of the entries left out before it. */
  lemma ChaseEndsIff(encode: Encoder, es: seq<Entry>, i: nat)
    requires i < |es| && CameTo(es, Kept(encode, es, i), i)
    ensures var kept, p := Kept(encode, es, i), es[i].parent;
            var m := DroppedMap(es, kept, i);
            && ((exists k: nat :: Chase(m, p, k) !in m) <==> Reached(es, kept, p, i).Some?)
            && (Reached(es, kept, p, i).Some? ==> exists k: nat :: Chase(m, p, k) == Reached(es, kept, p, i).value)
  {
    var kept, p := Kept(encode, es, i), es[i].parent;
    if Reached(es, kept, p, i).Some? {
      var k := ChaseArrives(es, kept, p, i);
    } else {
      forall k: nat ensures Chase(DroppedMap(es, kept, i), p, k) in DroppedMap(es, kept, i) {
        ChaseGoesOn(es, kept, p, i, k);
      }
    }
  }

  // The same on the session's own links, where the entries left out have names of their own.

  ghost predicate OwnNames(es: seq<Entry>, kept: seq<bool>, n: nat)
    requires n <= |es| && n <= |kept|
  {
    forall i, j :: 0 <= i < j < n && Dropped(es, kept, i) && Dropped(es, kept, j) ==> es[i].id != es[j].id
  }

  /** Following the session's links, as they are, from p through entries left out before n. */
  function Follow(es: seq<Entry>, kept: seq<bool>, p: string, n: nat, k: nat): string
    requires n <= |es| && n <= |kept|
    decreases k
  {
    var j := Latest(es, kept, p, n);
    if k == 0 || j < 0 then p else Follow(es, kept, es[j].parent, n, k - 1)
  }

  ghost predicate Leaves(es: seq<Entry>, kept: seq<bool>, p: string, n: nat)
    requires n <= |es| && n <= |kept|
  {
    exists k: nat :: Latest(es, kept, Follow(es, kept, p, n, k), n) < 0
  }

  lemma LatestIsTheOne(es: seq<Entry>, kept: seq<bool>, p: string, j: nat, n: nat)
    requires j <= n <= |es| && n <= |kept| && OwnNames(es, kept, n) && Latest(es, kept, p, j) >= 0
    ensures Latest(es, kept, p, n) == Latest(es, kept, p, j)
  {
    var i, k := Latest(es, kept, p, j), Latest(es, kept, p, n);
    assert k >= i && Dropped(es, kept, i) && Dropped(es, kept, k);
  }

  /** A link followed part of the way is followed on from there. */
  lemma {:induction false} ReachedInParts(es: seq<Entry>, kept: seq<bool>, p: string, j: nat, n: nat)
    requires j <= n <= |es| && n <= |kept| && OwnNames(es, kept, n)
    ensures var q := Reached(es, kept, p, j);
            Reached(es, kept, p, n) == if q.None? then None else Reached(es, kept, q.value, n)
    decreases j, Rank(es, kept, p, j)
  {
    var i := Latest(es, kept, p, j);
    if i >= 0 {
      LatestIsTheOne(es, kept, p, j, n);
      var up := Reached(es, kept, es[i].parent, i);
      if up.Some? && up.value != p {
        LaterOrNone(es, kept, up.value, i, j);
        ReachedInParts(es, kept, up.value, j, n);
      }
    }
  }

  lemma OneLink(es: seq<Entry>, kept: seq<bool>, p: string, n: nat)
    requires n <= |es| && n <= |kept| && OwnNames(es, kept, n) && Latest(es, kept, p, n) >= 0
    requires Reached(es, kept, es[Latest(es, kept, p, n)].parent, Latest(es, kept, p, n)).Some?
    ensures Reached(es, kept, p, n) == Reached(es, kept, es[Latest(es, kept, p, n)].parent, n)
  {
    var j := Latest(es, kept, p, n);
    ReachedInParts(es, kept, es[j].parent, j, n);
  }

  lemma {:induction false} LeavingReaches(es: seq<Entry>, kept: seq<bool>, p: string, n: nat, k: nat)
    requires n <= |es| && n <= |kept| && OwnNames(es, kept, n) && CameTo(es, kept, n)
    requires Latest(es, kept, Follow(es, kept, p, n, k), n) < 0
    ensures Reached(es, kept, p, n).Some?
    decreases k
  {
    var j := Latest(es, kept, p, n);
    if j >= 0 && k > 0 {
      OneLink(es, kept, p, n);
      LeavingReaches(es, kept, es[j].parent, n, k - 1);
    }
  }

  lemma LeavesByOne(es: seq<Entry>, kept: seq<bool>, p: string, n: nat)
    requires n <= |es| && n <= |kept| && Latest(es, kept, p, n) >= 0
    requires Leaves(es, kept, es[Latest(es, kept, p, n)].parent, n)
    ensures Leaves(es, kept, p, n)
  {
    var q := es[Latest(es, kept, p, n)].parent;
    var k: nat :| Latest(es, kept, Follow(es, kept, q, n, k), n) < 0;
    assert Follow(es, kept, p, n, k + 1) == Follow(es, kept, q, n, k);
  }

  lemma {:induction false} LeavesFromBefore(es: seq<Entry>, kept: seq<bool>, q: string, j: nat, n: nat)
    requires j <= n <= |es| && n <= |kept| && OwnNames(es, kept, n)
    requires Reached(es, kept, q, j).Some? && Leaves(es, kept, Reached(es, kept, q, j).value, n)
    ensures Leaves(es, kept, q, n)
    decreases j, Rank(es, kept, q, j)
  {
    var i := Latest(es, kept, q, j);
    if i >= 0 {
      LatestIsTheOne(es, kept, q, j, n);
      var up := Reached(es, kept, es[i].parent, i);
      LaterOrNone(es, kept, up.value, i, j);
      LeavesFromBefore(es, kept, up.value, j, n);
      LeavesFromBefore(es, kept, es[i].parent, i, n);
      LeavesByOne(es, kept, q, n);
    }
  }

  lemma {:induction false} ReachingLeaves(es: seq<Entry>, kept: seq<bool>, p: string, n: nat)
    requires n <= |es| && n <= |kept| && OwnNames(es, kept, n) && Reached(es, kept, p, n).Some?
    ensures Leaves(es, kept, p, n)
    decreases n, Rank(es, kept, p, n)
  {
    var j := Latest(es, kept, p, n);
    if j < 0 {
      assert Follow(es, kept, p, n, 0) == p;
    } else {
      var up := Reached(es, kept, es[j].parent, j);
      LaterOrNone(es, kept, up.value, j, n);
      ReachingLeaves(es, kept, up.value, n);
      LeavesFromBefore(es, kept, es[j].parent, j, n);
      LeavesByOne(es, kept, p, n);
    }
  }

  /** Where the entries left out have distinct names, the inner loop ends exactly when following the session's own links
      from the entry leaves them: when no circle of links runs through nothing but entries left out before it. */
  lemma EndsIffLinksLeave(encode: Encoder, es: seq<Entry>, i: nat)
    requires i < |es| && CameTo(es, Kept(encode, es, i), i) && OwnNames(es, Kept(encode, es, i), i)
    ensures var kept, p := Kept(encode, es, i), es[i].parent;
            var m := DroppedMap(es, kept, i);
            (exists k: nat :: Chase(m, p, k) !in m) <==> Leaves(es, kept, p, i)
  {
    var kept, p := Kept(encode, es, i), es[i].parent;
    ChaseEndsIff(encode, es, i);
    if Reached(es, kept, p, i).Some? {
      ReachingLeaves(es, kept, p, i);
    } else if k: nat :| Latest(es, kept, Follow(es, kept, p, i, k), i) < 0 {
      LeavingReaches(es, kept, p, i, k);
    }
  }

  // Which parents are passed.

  /** The name reached is the link itself or a link of an entry left out before. */
  lemma {:induction false} ReachedIsALink(es: seq<Entry>, kept: seq<bool>, p: string, n: nat)
    requires n <= |es| && n <= |kept| && Reached(es, kept, p, n).Some?
    ensures var q := Reached(es, kept, p, n).value;
            q == p || exists j :: 0 <= j < n && Dropped(es, kept, j) && es[j].parent == q
    decreases n, Rank(es, kept, p, n)
  {
    var j := Latest(es, kept, p, n);
    if j >= 0 {
      var up := Reached(es, kept, es[j].parent, j);
      LaterOrNone(es, kept, up.value, j, n);
      ReachedIsALink(es, kept, es[j].parent, j);
      ReachedIsALink(es, kept, up.value, n);
    }
  }

  /** q is the first name on the chain of the session's own links from p that no entry left out before n has: k links on,
      each of them the link of an entry left out. */
  predicate NearestSurvivor(es: seq<Entry>, kept: seq<bool>, p: string, n: nat, k: nat, q: string)
    requires n <= |es| && n <= |kept|
  {
    && Follow(es, kept, p, n, k) == q && Latest(es, kept, q, n) < 0
    && forall i :: 0 <= i < k ==> Latest(es, kept, Follow(es, kept, p, n, i), n) >= 0
  }

  lemma {:induction false} FollowToSurvivor(es: seq<Entry>, kept: seq<bool>, p: string, n: nat, bound: nat) returns (k: nat)
    requires n <= |es| && n <= |kept| && OwnNames(es, kept, n) && Reached(es, kept, p, n).Some?
    requires Latest(es, kept, Follow(es, kept, p, n, bound), n) < 0
    ensures NearestSurvivor(es, kept, p, n, k, Reached(es, kept, p, n).value)
    ensures Follow(es, kept, p, n, bound) == Reached(es, kept, p, n).value
    decreases bound
  {
    var j := Latest(es, kept, p, n);
    k := 0;
    if j >= 0 {
      var next := es[j].parent;
      OneLink(es, kept, p, n);
      var rest := FollowToSurvivor(es, kept, next, n, bound - 1);
      k := rest + 1;
      forall i | 0 <= i < k ensures Latest(es, kept, Follow(es, kept, p, n, i), n) >= 0 {
        if i > 0 {
          assert Follow(es, kept, p, n, i) == Follow(es, kept, next, n, i - 1);
        }
      }
    }
  }

  /** Where the entries left out have distinct names, an entry is passed with its nearest surviving ancestor: the first
      on the chain of the session's own links that was not left out before it. */
  lemma PassedWithNearestSurvivor(encode: Encoder, es: seq<Entry>, i: nat) returns (k: nat)
    requires i < |es| && OwnNames(es, Kept(encode, es, i), i)
    requires Reached(es, Kept(encode, es, i), es[i].parent, i).Some?
    ensures var kept := Kept(encode, es, i);
            NearestSurvivor(es, kept, es[i].parent, i, k, Passed(es, kept, i).parent)
  {
    var kept, p := Kept(encode, es, i), es[i].parent;
    ReachingLeaves(es, kept, p, i);
    var bound: nat :| Latest(es, kept, Follow(es, kept, p, i, bound), i) < 0;
    k := FollowToSurvivor(es, kept, p, i, bound);
  }

  /** On those links: an entry is passed with a parent that gets no row exactly when its chain, past the entries left out
      before it, comes to one left out at or after it. */
  lemma LeftOutParentOnLinksIff(encode: Encoder, es: seq<Entry>, i: nat)
    requires i < |es| && OwnNames(es, Kept(encode, es, i), i)
    requires Reached(es, Kept(encode, es, i), es[i].parent, i).Some?
    ensures var kept, all, p := Kept(encode, es, i), Kept(encode, es, |es|), es[i].parent;
            (exists j :: 0 <= j < |es| && Dropped(es, all, j) && es[j].id == Passed(es, kept, i).parent) <==>
            (exists j, k: nat :: i <= j < |es| && Dropped(es, all, j) && NearestSurvivor(es, kept, p, i, k, es[j].id))
  {
    var kept, all, p := Kept(encode, es, i), Kept(encode, es, |es|), es[i].parent;
    LeftOutParentIff(encode, es, i);
    var k := PassedWithNearestSurvivor(encode, es, i);
    if j, m: nat :| i <= j < |es| && Dropped(es, all, j) && NearestSurvivor(es, kept, p, i, m, es[j].id) {
      var same := FollowToSurvivor(es, kept, p, i, m);
    }
  }

  /** A link is passed as it is exactly when no entry before it that was left out has that name. */
  lemma PassedAsItIsIff(es: seq<Entry>, kept: seq<bool>, i: nat)
    requires i < |es| && i <= |kept| && Reached(es, kept, es[i].parent, i).Some?
    ensures Passed(es, kept, i) == es[i] <==>
            forall j :: 0 <= j < i && Dropped(es, kept, j) ==> es[j].id != es[i].parent
  {
    var j := Latest(es, kept, es[i].parent, i);
    if j >= 0 {
      assert Dropped(es, kept, j) && es[j].id == es[i].parent;
    }
  }

  /** Exactly when an entry is passed with a parent that gets no row: when the name its link reaches is that of an entry
      at or after it that is left out. No entry left out before it is ever named. */
  lemma LeftOutParentIff(encode: Encoder, es: seq<Entry>, i: nat)
    requires i < |es| && Reached(es, Kept(encode, es, i), es[i].parent, i).Some?
    ensures var kept, q := Kept(encode, es, |es|), Passed(es, Kept(encode, es, i), i).parent;
            (exists j :: 0 <= j < |es| && Dropped(es, kept, j) && es[j].id == q) <==>
            (exists j :: i <= j < |es| && Dropped(es, kept, j) && es[j].id == q)
    ensures var kept, q := Kept(encode, es, |es|), Passed(es, Kept(encode, es, i), i).parent;
            forall j :: 0 <= j < i && Dropped(es, kept, j) ==> es[j].id != q
  {
    PassedInTheEnd(encode, es, i);
    var kept, q := Kept(encode, es, |es|), Passed(es, Kept(encode, es, i), i).parent;
    assert Latest(es, kept, q, i) == -1;
  }

  /** No entry is linked to itself or to a later entry the write encodes. */
  ghost predicate PointsBack(es: seq<Entry>) {
    forall i, j :: 0 <= i <= j < |es| && es[j].raw.None? && es[j].id != "" ==> es[i].parent != es[j].id
  }

  /** A backward-pointing session with unique ids is one. */
  lemma BackwardPointsBack(es: seq<Entry>)
    requires Backward(es)
    ensures PointsBack(es)
  {
  }

  lemma {:induction false} BackwardReaches(es: seq<Entry>, kept: seq<bool>, p: string, n: nat)
    requires PointsBack(es) && n <= |es| && n <= |kept|
    ensures Reached(es, kept, p, n).Some?
    decreases n, Rank(es, kept, p, n)
  {
    var j := Latest(es, kept, p, n);
    if j >= 0 {
      BackwardReaches(es, kept, es[j].parent, j);
      ReachedIsALink(es, kept, es[j].parent, j);
      var up := Reached(es, kept, es[j].parent, j).value;
      assert up != es[j].id;
      LaterOrNone(es, kept, up, j, n);
      BackwardReaches(es, kept, up, n);
    }
  }

  /** Where links point to earlier entries the inner loop always ends. */
  lemma BackwardLinksEnd(encode: Encoder, es: seq<Entry>)
    requires PointsBack(es)
    ensures LinksEnd(encode, es)
  {
    forall i | 0 <= i < |es| ensures Reached(es, Kept(encode, es, i), es[i].parent, i).Some? {
      BackwardReaches(es, Kept(encode, es, i), es[i].parent, i);
    }
  }

  /** And whatever the encoder leaves out, an entry it is given is linked to a name that no entry left out anywhere in
      the session has. */
  lemma ParentSurvives(encode: Encoder, es: seq<Entry>, i: nat, j: nat)
    requires PointsBack(es) && i < |es| && j < |es|
    requires Dropped(es, Kept(encode, es, |es|), j)
    ensures Passed(es, Kept(encode, es, i), i).parent != es[j].id
  {
    var kept := Kept(encode, es, i);
    BackwardReaches(es, kept, es[i].parent, i);
    LeftOutParentIff(encode, es, i);
    ReachedIsALink(es, kept, es[i].parent, i);
  }

  // The loop.

  /** The inner loop of Write at entry i. */
  method Relink(dropped: map<string, string>, entry: Entry, ghost es: seq<Entry>, ghost kept: seq<bool>, ghost i: nat)
    returns (e: Entry)
    requires i < |es| && i <= |kept| && entry == es[i] && dropped == DroppedMap(es, kept, i)
    requires Reached(es, kept, entry.parent, i).Some?
    ensures e == Passed(es, kept, i)
  {
    DroppedMapIs(es, kept, i);
    e := entry;
    while e.parent in dropped
      invariant e == entry.(parent := e.parent)
      invariant Reached(es, kept, e.parent, i) == Reached(es, kept, entry.parent, i)
      decreases Rank(es, kept, e.parent, i)
    {
      ghost var j := Latest(es, kept, e.parent, i);
      LaterOrNone(es, kept, Reached(es, kept, es[j].parent, j).value, j, i);
      e := e.(parent := dropped[e.parent]);
    }
  }

  /** The loop of Write. It needs of the session just what its inner loop needs to end. */
  method EncodeRows(encode: Encoder, es: seq<Entry>) returns (rows: Option<seq<string>>)
    requires LinksEnd(encode, es)
    ensures rows == Written(encode, es, |es|)
  {
    ghost var kept := Kept(encode, es, |es|);
    var out: seq<string> := [];
    var dropped: map<string, string> := map[];
    var i := 0;
    while i < |es|
      invariant 0 <= i <= |es|
      invariant Some(out) == Written(encode, es, i)
      invariant dropped == DroppedMap(es, kept, i)
    {
      PassedInTheEnd(encode, es, i);
      var e := Relink(dropped, es[i], es, kept, i);
      var row := if e.raw.Some? then Row(e.raw.value) else encode(e);
      OneMoreRow(encode, es, i, out);
      if row.Failed? {
        WrittenFails(encode, es, i + 1, |es|);
        return None;
      }
      if row.bytes == "" {
        if e.raw.None? && e.id != "" {
          dropped := dropped[e.id := e.parent];
        }
      } else {
        out := out + [row.bytes];
      }
      i := i + 1;
    }
    rows := Some(out);
  }

  /** What one turn of the loop does to the rows and to dropped. */
  lemma OneMoreRow(encode: Encoder, es: seq<Entry>, i: nat, out: seq<string>)
    requires i < |es| && Written(encode, es, i) == Some(out)
    ensures var kept, e := Kept(encode, es, |es|), Passed(es, Kept(encode, es, |es|), i);
            var row := if e.raw.Some? then Row(e.raw.value) else encode(e);
            && Written(encode, es, i + 1) ==
               (if row.Failed? then None else Some(if row.bytes == "" then out else out + [row.bytes]))
            && DroppedMap(es, kept, i + 1) ==
               if row == Row("") && e.raw.None? && e.id != "" then DroppedMap(es, kept, i)[e.id := e.parent]
               else DroppedMap(es, kept, i)
  {
    PassedInTheEnd(encode, es, i);
    assert out + [] == out;
  }

  lemma {:induction false} WrittenFails(encode: Encoder, es: seq<Entry>, i: nat, n: nat)
    requires i <= n <= |es| && Written(encode, es, i).None?
    ensures Written(encode, es, n).None?
  {
    if i < n {
      WrittenFails(encode, es, i, n - 1);
    }
  }

  // Two sessions.

  function New(id: string, parent: string): Entry {
    Entry(id, parent, true, None, None, "")
  }

  /** An encoder that has no row for the entry of one name. */
  function Without(name: string): Encoder {
    (e: Entry) => if e.id == name then Row("") else Row("row")
  }

  /** An entry linked to itself that gets no row: the loop comes to its child and never leaves it. */
  lemma SelfLinkNeverEnds(k: nat)
    ensures var es, encode := [New("x", "x"), New("y", "x")], Without("x");
            var kept := Kept(encode, es, 1);
            var m := DroppedMap(es, kept, 1);
            && Written(encode, es, 1) == Some([]) && CameTo(es, kept, 1)
            && Reached(es, kept, "x", 1) == None && Chase(m, "x", k) in m
  {
    var es, encode := [New("x", "x"), New("y", "x")], Without("x");
    var kept := Kept(encode, es, 1);
    assert Kept(encode, es, 0) == [] && Reached(es, [], "x", 0) == Some("x");
    assert RowFor(encode, es, [], 0) == Row("");
    assert kept == [false] && Dropped(es, kept, 0);
    assert Written(encode, es, 0) == Some([]) && [] + [] == Written(encode, es, 0).value;
    assert Latest(es, kept, "x", 0) == -1 && Latest(es, kept, "x", 1) == 0;
    assert Reached(es, kept, "x", 0) == Some("x");
    ChaseGoesOn(es, kept, "x", 1, k);
  }

  /** A link to a later entry that gets no row is passed as it is, and written. */
  lemma ForwardLinkIsPassed()
    ensures var es, encode := [New("a", "b"), New("b", "")], Without("b");
            var kept := Kept(encode, es, 2);
            && LinksEnd(encode, es) && Written(encode, es, 2) == Some(["row"])
            && Dropped(es, kept, 1) && Passed(es, kept, 0).parent == es[1].id
  {
    var es, encode := [New("a", "b"), New("b", "")], Without("b");
    assert Kept(encode, es, 0) == [] && Reached(es, [], "b", 0) == Some("b");
    assert Passed(es, [], 0) == es[0] && RowFor(encode, es, [], 0) == Row("row");
    var one := Kept(encode, es, 1);
    assert one == [true] && !Dropped(es, one, 0);
    assert Latest(es, one, "", 1) == -1 && Reached(es, one, "", 1) == Some("");
    assert Passed(es, one, 1) == es[1] && RowFor(encode, es, one, 1) == Row("");
    assert Kept(encode, es, 2) == [true, false];
    assert Written(encode, es, 0) == Some([]) && [] + ["row"] == ["row"] && ["row"] + [] == ["row"];
    assert Written(encode, es, 1) == Some(["row"]);
    assert forall i :: 0 <= i < 2 ==> Reached(es, Kept(encode, es, i), es[i].parent, i).Some?;
  }
}
