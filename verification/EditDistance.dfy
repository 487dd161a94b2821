/** The one-row edit distance behind calendar title suggestions. */
module EditDistance {
  import opened Texts
  import opened Wrappers

  /** One UTF-16 code unit, which is what the source compares and counts. */
  type Unit = nat

  // ----- What is being computed: the least number of single-unit edits -----

  /** `b` is `a` with one unit inserted, deleted or replaced (or nothing changed). */
  ghost predicate OneEdit(a: Text, b: Text) {
    exists p: Text, x: Text, y: Text, q: Text ::
      |x| <= 1 && |y| <= 1 && a == p + x + q && b == p + y + q
  }

  ghost predicate Reaches(a: Text, b: Text, edits: nat)
    decreases edits
  {
    if edits == 0 then a == b else exists m: Text :: OneEdit(a, m) && Reaches(m, b, edits - 1)
  }

  // ----- The recurrence over prefixes -----

  function Cost(c: Unit, d: Unit): nat {
    if c == d then 0 else 1
  }

  function Distance(a: Text, b: Text): nat
    decreases |a| + |b|
  {
    if a == [] then |b|
    else if b == [] then |a|
    else
      var a', b' := a[..|a| - 1], b[..|b| - 1];
      Min(Distance(a', b) + 1, Min(Distance(a, b') + 1, Distance(a', b') + Cost(a[|a| - 1], b[|b| - 1])))
  }

  lemma DistanceSnoc(a: Text, c: Unit, b: Text, d: Unit)
    ensures Distance(a + [c], b + [d]) ==
      Min(Distance(a, b + [d]) + 1, Min(Distance(a + [c], b) + 1, Distance(a, b) + Cost(c, d)))
  {
    assert (a + [c])[..|a|] == a && (b + [d])[..|b|] == b;
  }

  lemma Unsnoc(a: Text)
    requires a != []
    ensures a == a[..|a| - 1] + [a[|a| - 1]]
  {
  }

  lemma {:induction false} RightAppendNear(a: Text, b: Text, d: Unit)
    ensures Distance(a, b + [d]) <= Distance(a, b) + 1
    ensures Distance(a, b) <= Distance(a, b + [d]) + 1
    decreases |a|
  {
    assert (b + [d])[..|b|] == b;
    if a != [] {
      Unsnoc(a);
      var a' := a[..|a| - 1];
      DistanceSnoc(a', a[|a| - 1], b, d);
      RightAppendNear(a', b, d);
    }
  }

  /** Appending one unit changes the distance by at most one. */
  lemma {:induction false} AppendNear(a: Text, c: Unit, b: Text)
    ensures Distance(a + [c], b) <= Distance(a, b) + 1
    ensures Distance(a, b) <= Distance(a + [c], b) + 1
    decreases |b|
  {
    assert (a + [c])[..|a|] == a;
    if b != [] {
      Unsnoc(b);
      var b' := b[..|b| - 1];
      DistanceSnoc(a, c, b', b[|b| - 1]);
      AppendNear(a, c, b');
      RightAppendNear(a, b', b[|b| - 1]);
    }
  }

  // ----- No sequence of edits is shorter -----

  lemma {:induction false} ReplaceLastNear(p: Text, c: Unit, d: Unit, b: Text)
    ensures Distance(p + [c], b) <= Distance(p + [d], b) + 1
    decreases |b|
  {
    if b != [] {
      Unsnoc(b);
      var b' := b[..|b| - 1];
      DistanceSnoc(p, c, b', b[|b| - 1]);
      DistanceSnoc(p, d, b', b[|b| - 1]);
      ReplaceLastNear(p, c, d, b');
    }
  }

  /** One edit anywhere changes the distance by at most one. */
  lemma {:induction false} OneEditNear(p: Text, x: Text, y: Text, q: Text, b: Text)
    requires |x| <= 1 && |y| <= 1
    ensures Distance(p + x + q, b) <= Distance(p + y + q, b) + 1
    decreases |q| + |b|
  {
    if q == [] {
      assert p + x + q == p + x && p + y + q == p + y && p + [] == p;
      if x != [] && y != [] {
        assert x == [x[0]] && y == [y[0]];
        ReplaceLastNear(p, x[0], y[0], b);
      } else if x != [] {
        assert x == [x[0]];
        AppendNear(p, x[0], b);
      } else if y != [] {
        assert y == [y[0]];
        AppendNear(p, y[0], b);
      }
    } else if b != [] {
      var q', z, b', e := q[..|q| - 1], q[|q| - 1], b[..|b| - 1], b[|b| - 1];
      Unsnoc(q);
      Unsnoc(b);
      assert p + x + q == (p + x + q') + [z] && p + y + q == (p + y + q') + [z];
      DistanceSnoc(p + x + q', z, b', e);
      DistanceSnoc(p + y + q', z, b', e);
      OneEditNear(p, x, y, q', b);
      OneEditNear(p, x, y, q, b');
      OneEditNear(p, x, y, q', b');
    }
  }

  lemma {:induction false} DistanceToSelf(a: Text)
    ensures Distance(a, a) == 0
  {
    if a != [] { DistanceToSelf(a[..|a| - 1]); }
  }

  lemma {:induction false} NoShorterPath(a: Text, b: Text, edits: nat)
    requires Reaches(a, b, edits)
    ensures Distance(a, b) <= edits
    decreases edits
  {
    if edits == 0 {
      DistanceToSelf(a);
    } else {
      var m: Text :| OneEdit(a, m) && Reaches(m, b, edits - 1);
      var p: Text, x: Text, y: Text, q: Text :|
        |x| <= 1 && |y| <= 1 && a == p + x + q && m == p + y + q;
      OneEditNear(p, x, y, q, b);
      NoShorterPath(m, b, edits - 1);
    }
  }

  // ----- and that many edits suffice -----

  lemma EditBetween(p: Text, x: Text, y: Text, q: Text, a: Text, b: Text)
    requires |x| <= 1 && |y| <= 1 && a == p + x + q && b == p + y + q
    ensures OneEdit(a, b)
  {
  }

  lemma {:induction false} ReachesThenEdit(a: Text, m: Text, b: Text, edits: nat)
    requires Reaches(a, m, edits) && OneEdit(m, b)
    ensures Reaches(a, b, edits + 1)
    decreases edits
  {
    if edits == 0 {
      assert Reaches(b, b, 0);
    } else {
      var n: Text :| OneEdit(a, n) && Reaches(n, m, edits - 1);
      ReachesThenEdit(n, m, b, edits - 1);
    }
  }

  lemma EditWithSuffix(a: Text, b: Text, c: Unit)
    requires OneEdit(a, b)
    ensures OneEdit(a + [c], b + [c])
  {
    var p: Text, x: Text, y: Text, q: Text :|
      |x| <= 1 && |y| <= 1 && a == p + x + q && b == p + y + q;
    assert a + [c] == p + x + (q + [c]) && b + [c] == p + y + (q + [c]);
    EditBetween(p, x, y, q + [c], a + [c], b + [c]);
  }

  lemma {:induction false} ReachesWithSuffix(a: Text, b: Text, c: Unit, edits: nat)
    requires Reaches(a, b, edits)
    ensures Reaches(a + [c], b + [c], edits)
    decreases edits
  {
    if edits > 0 {
      var m: Text :| OneEdit(a, m) && Reaches(m, b, edits - 1);
      EditWithSuffix(a, m, c);
      ReachesWithSuffix(m, b, c, edits - 1);
    }
  }

  lemma InsertLast(a: Text, b: Text, d: Unit, edits: nat)
    requires Reaches(a, b, edits)
    ensures Reaches(a, b + [d], edits + 1)
  {
    assert b == b + [] + [] && b + [d] == b + [d] + [];
    EditBetween(b, [], [d], [], b, b + [d]);
    ReachesThenEdit(a, b, b + [d], edits);
  }

  lemma DeleteLast(a: Text, c: Unit, b: Text, edits: nat)
    requires Reaches(a, b, edits)
    ensures Reaches(a + [c], b, edits + 1)
  {
    assert a == a + [] + [] && a + [c] == a + [c] + [];
    EditBetween(a, [c], [], [], a + [c], a);
  }

  lemma ReplaceLast(a: Text, c: Unit, b: Text, d: Unit, edits: nat)
    requires Reaches(a, b, edits)
    ensures Reaches(a + [c], b + [d], edits + Cost(c, d))
  {
    ReachesWithSuffix(a, b, c, edits);
    if c != d {
      assert b + [c] == b + [c] + [] && b + [d] == b + [d] + [];
      EditBetween(b, [c], [d], [], b + [c], b + [d]);
      ReachesThenEdit(a + [c], b + [c], b + [d], edits);
    }
  }

  lemma {:induction false} DistanceIsReached(a: Text, b: Text)
    ensures Reaches(a, b, Distance(a, b))
    decreases |a| + |b|
  {
    if a != [] { Unsnoc(a); }
    if b != [] { Unsnoc(b); }
    if a == [] && b == [] {
    } else if a == [] || (b != [] && Distance(a, b) == Distance(a, b[..|b| - 1]) + 1) {
      DistanceIsReached(a, b[..|b| - 1]);
      InsertLast(a, b[..|b| - 1], b[|b| - 1], Distance(a, b[..|b| - 1]));
    } else if b == [] || Distance(a, b) == Distance(a[..|a| - 1], b) + 1 {
      DistanceIsReached(a[..|a| - 1], b);
      DeleteLast(a[..|a| - 1], a[|a| - 1], b, Distance(a[..|a| - 1], b));
    } else {
      var a', b' := a[..|a| - 1], b[..|b| - 1];
      DistanceIsReached(a', b');
      ReplaceLast(a', a[|a| - 1], b', b[|b| - 1], Distance(a', b'));
    }
  }

  lemma {:induction false} IdleEdits(a: Text, b: Text, few: nat, many: nat)
    requires few <= many && Reaches(a, b, few)
    ensures Reaches(a, b, many)
    decreases many
  {
    if few < many {
      IdleEdits(a, b, few, many - 1);
      assert b == b + [] + [];
      EditBetween(b, [], [], [], b, b);
      ReachesThenEdit(a, b, b, many - 1);
    }
  }

  /** `n` single-unit edits can turn `a` into `b` exactly when `n` is at least the distance. */
  lemma DistanceIsLeast(a: Text, b: Text, n: nat)
    ensures Reaches(a, b, n) <==> Distance(a, b) <= n
  {
    if Distance(a, b) <= n {
      DistanceIsReached(a, b);
      IdleEdits(a, b, Distance(a, b), n);
    } else if Reaches(a, b, n) {
      NoShorterPath(a, b, n);
    }
  }

  // ----- The score -----

  function Score(a: Text, b: Text): real {
    if a == [] || b == [] then 0.0
    else 1.0 - Distance(a, b) as real / Max(|a|, |b|) as real
  }

  lemma {:induction false} DistanceIsSymmetric(a: Text, b: Text)
    ensures Distance(a, b) == Distance(b, a)
    decreases |a| + |b|
  {
    if a != [] && b != [] {
      DistanceIsSymmetric(a[..|a| - 1], b);
      DistanceIsSymmetric(a, b[..|b| - 1]);
      DistanceIsSymmetric(a[..|a| - 1], b[..|b| - 1]);
    }
  }

  lemma {:induction false} DistanceIsBounded(a: Text, b: Text)
    ensures Distance(a, b) <= Max(|a|, |b|)
    ensures Distance(a, b) == 0 <==> a == b
    decreases |a| + |b|
  {
    if a != [] && b != [] {
      Unsnoc(a);
      Unsnoc(b);
      DistanceIsBounded(a[..|a| - 1], b[..|b| - 1]);
    }
  }

  lemma QuotientInUnit(n: nat, d: nat)
    requires n <= d && d > 0
    ensures 0.0 <= n as real / d as real <= 1.0
    ensures n as real / d as real == 0.0 <==> n == 0
  {
  }

  lemma ScoreIsSimilarity(a: Text, b: Text)
    ensures Score(a, b) == Score(b, a)
    ensures 0.0 <= Score(a, b) <= 1.0
    ensures Score(a, b) == 1.0 <==> a == b && a != []
  {
    DistanceIsSymmetric(a, b);
    DistanceIsBounded(a, b);
    if a != [] && b != [] {
      QuotientInUnit(Distance(a, b), Max(|a|, |b|));
    }
  }

  /** Row `i` of the distance table: entry j compares the prefixes of lengths i and j. */
  ghost function Row(a: Text, b: Text, i: nat): (row: seq<int>)
    requires i <= |a|
    ensures |row| == |b| + 1
  {
    seq(|b| + 1, j requires 0 <= j <= |b| => Distance(a[..i], b[..j]))
  }

  /** `next` is computed from `row` for the character `c` of `a`. */
  ghost predicate Follows(row: seq<int>, next: seq<int>, c: Unit, b: Text) {
    && |row| == |next| == |b| + 1 && next[0] == row[0] + 1
    && forall j :: 1 <= j <= |b| ==>
         next[j] == Min(row[j] + 1, Min(next[j - 1] + 1, row[j - 1] + Cost(c, b[j - 1])))
  }

  lemma RowFollows(a: Text, b: Text, i: nat)
    requires 1 <= i <= |a|
    ensures Follows(Row(a, b, i - 1), Row(a, b, i), a[i - 1], b)
  {
    assert a[..i][..i - 1] == a[..i - 1];
    forall j | 1 <= j <= |b|
      ensures Row(a, b, i)[j] == Min(Row(a, b, i - 1)[j] + 1,
                Min(Row(a, b, i)[j - 1] + 1, Row(a, b, i - 1)[j - 1] + Cost(a[i - 1], b[j - 1])))
    {
      assert b[..j][..j - 1] == b[..j - 1];
    }
  }

  /** One pass over the row: overwrites it in place, keeping the replaced diagonal aside. */
  method NextRow(c: Unit, b: Text, i: nat, row: array<int>, ghost next: seq<int>)
    requires row.Length == |b| + 1 && row[0] == i - 1
    requires Follows(row[..], next, c, b)
    modifies row
    ensures row[..] == next
  {
    var diagonal := row[0];
    row[0] := i;
    for j := 1 to |b| + 1
      invariant diagonal == old(row[j - 1])
      invariant forall k :: 0 <= k < j ==> row[k] == next[k]
      invariant forall k :: j <= k <= |b| ==> row[k] == old(row[k])
    {
      var previous := row[j];
      row[j] := Min(row[j] + 1, Min(row[j - 1] + 1, diagonal + if c == b[j - 1] then 0 else 1));
      diagonal := previous;
    }
  }

  method Similarity(a: Text, b: Text) returns (score: real)
    ensures score == Score(a, b)
  {
    if a == [] || b == [] { return 0.0; }
    var row := new int[|b| + 1](i => i);
    assert row[..] == Row(a, b, 0);
    for i := 1 to |a| + 1
      invariant row[..] == Row(a, b, i - 1)
    {
      RowFollows(a, b, i);
      assert row[0] == Row(a, b, i - 1)[0];
      NextRow(a[i - 1], b, i, row, Row(a, b, i));
    }
    assert a[..|a|] == a && b[..|b|] == b && row[|b|] == Row(a, b, |a|)[|b|];
    return 1.0 - row[|b|] as real / Max(|a|, |b|) as real;
  }
}
