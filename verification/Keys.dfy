/** The store keeps its tables under strings that join several ids with NUL. The models use
    the tuple of ids instead; here is exactly when that is the same. */
module Keys {
  const NUL := '\U{0000}'

  function Joined(ids: seq<string>): string
    requires ids != []
  {
    if |ids| == 1 then ids[0] else ids[0] + [NUL] + Joined(ids[1..])
  }

  predicate NulFree(id: string) { '\U{0000}' !in id }

  ghost predicate AllNulFree(ids: seq<string>) {
    forall i | 0 <= i < |ids| :: NulFree(ids[i])
  }

  function Nuls(s: string): nat {
    if s == "" then 0 else (if s[0] == NUL then 1 else 0) + Nuls(s[1..])
  }

  lemma {:induction false} NulsConcat(a: string, b: string)
    ensures Nuls(a + b) == Nuls(a) + Nuls(b)
  {
    if a == "" {
      assert a + b == b;
    } else {
      NulsConcat(a[1..], b);
      assert (a + b)[1..] == a[1..] + b;
    }
  }

  lemma {:induction false} NoNuls(s: string)
    ensures Nuls(s) == 0 <==> NulFree(s)
  {
    if s != "" { NoNuls(s[1..]); }
  }

  lemma {:induction false} NulsOfJoined(ids: seq<string>)
    requires ids != []
    ensures Nuls(Joined(ids)) >= |ids| - 1
    ensures Nuls(Joined(ids)) == |ids| - 1 <==> AllNulFree(ids)
  {
    NoNuls(ids[0]);
    if |ids| > 1 {
      NulsOfJoined(ids[1..]);
      NulsConcat(ids[0] + [NUL], Joined(ids[1..]));
      NulsConcat(ids[0], [NUL]);
      assert Nuls([NUL]) == 1;
      assert forall i | 0 < i < |ids| :: ids[i] == ids[1..][i - 1];
    }
  }

  predicate FirstNulAt(s: string, n: nat) {
    n < |s| && s[n] == NUL && forall k | 0 <= k < n :: s[k] != NUL
  }

  lemma FirstPart(x: string, a: string, y: string, b: string)
    requires NulFree(x) && NulFree(y) && x + [NUL] + a == y + [NUL] + b
    ensures x == y && a == b
  {
    var s, t := x + [NUL] + a, y + [NUL] + b;
    assert FirstNulAt(s, |x|) && FirstNulAt(t, |y|);
    assert x == s[..|x|] && y == t[..|y|] && a == s[|x| + 1..] && b == t[|y| + 1..];
  }

  lemma {:induction false} SameParts(ids: seq<string>, other: seq<string>)
    requires ids != [] && |ids| == |other| && AllNulFree(ids) && AllNulFree(other) && Joined(ids) == Joined(other)
    ensures ids == other
  {
    if |ids| > 1 {
      FirstPart(ids[0], Joined(ids[1..]), other[0], Joined(other[1..]));
      SameParts(ids[1..], other[1..]);
      assert ids == [ids[0]] + ids[1..] && other == [other[0]] + other[1..];
    }
  }

  lemma {:induction false} JoinedConcat(a: seq<string>, b: seq<string>)
    requires a != [] && b != []
    ensures Joined(a + b) == Joined(a) + [NUL] + Joined(b)
  {
    if |a| == 1 {
      assert (a + b)[1..] == b;
    } else {
      JoinedConcat(a[1..], b);
      assert (a + b)[1..] == a[1..] + b;
    }
  }

  /** Two neighbours that join to the same string can be exchanged. */
  lemma SwapPair(front: seq<string>, x: string, y: string, x': string, y': string, back: seq<string>)
    requires x + [NUL] + y == x' + [NUL] + y'
    ensures Joined(front + [x, y] + back) == Joined(front + [x', y'] + back)
  {
    assert Joined([x, y]) == x + [NUL] + y by { assert [x, y][1..] == [y]; }
    assert Joined([x', y']) == x' + [NUL] + y' by { assert [x', y'][1..] == [y']; }
    if front != [] {
      JoinedConcat(front, [x, y]);
      JoinedConcat(front, [x', y']);
    } else {
      assert front + [x, y] == [x, y] && front + [x', y'] == [x', y'];
    }
    if back != [] {
      JoinedConcat(front + [x, y], back);
      JoinedConcat(front + [x', y'], back);
    } else {
      assert front + [x, y] + back == front + [x, y] && front + [x', y'] + back == front + [x', y'];
    }
  }

  /** An id with a NUL makes room for another tuple with the same key. */
  lemma OtherParts(ids: seq<string>, i: nat, p: nat) returns (other: seq<string>)
    requires |ids| >= 2 && i < |ids| && p < |ids[i]| && ids[i][p] == NUL
    ensures |other| == |ids| && other != ids && Joined(other) == Joined(ids)
  {
    var c := ids[i];
    assert c == c[..p] + [NUL] + c[p + 1..];
    if i + 1 < |ids| {
      var x, y := c[..p], c[p + 1..] + [NUL] + ids[i + 1];
      assert c + [NUL] + ids[i + 1] == x + [NUL] + y;
      SwapPair(ids[..i], c, ids[i + 1], x, y, ids[i + 2..]);
      assert ids == ids[..i] + [c, ids[i + 1]] + ids[i + 2..];
      other := ids[..i] + [x, y] + ids[i + 2..];
      assert |other[i]| < |ids[i]|;
    } else {
      var x, y := ids[i - 1] + [NUL] + c[..p], c[p + 1..];
      assert ids[i - 1] + [NUL] + c == x + [NUL] + y;
      SwapPair(ids[..i - 1], ids[i - 1], c, x, y, []);
      assert ids == ids[..i - 1] + [ids[i - 1], c] + [];
      other := ids[..i - 1] + [x, y] + [];
      assert |other[i]| < |ids[i]|;
    }
  }

  /** A joined key stands for one tuple of ids exactly when none of the ids contains NUL. */
  lemma KeyIdentifiesIff(ids: seq<string>)
    requires |ids| >= 2
    ensures AllNulFree(ids) <==> forall other | |other| == |ids| && Joined(other) == Joined(ids) :: other == ids
  {
    if AllNulFree(ids) {
      forall other | |other| == |ids| && Joined(other) == Joined(ids) ensures other == ids {
        NulsOfJoined(ids);
        NulsOfJoined(other);
        SameParts(other, ids);
      }
    } else {
      var i :| 0 <= i < |ids| && !NulFree(ids[i]);
      var p :| 0 <= p < |ids[i]| && ids[i][p] == NUL;
      var other := OtherParts(ids, i, p);
    }
  }
}
