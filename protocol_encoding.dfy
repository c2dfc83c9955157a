/**
  `protocol.astype('category').cat.codes`: pandas infers the categories of a string
  column as its distinct labels in sorted order, and the code of each row is the
  position of that row's label among the categories.
 */
module ProtocolEncoding {
  import opened StringOrder

  /** Adds `x` to a strictly sorted list, keeping it strictly sorted. */
  function InsertLabel(s: seq<string>, x: string): (r: seq<string>)
    requires StrictlySorted(s)
    ensures StrictlySorted(r)
    ensures forall y :: y in r <==> y in s || y == x
    decreases |s|
  {
    if |s| == 0 then [x]
    else if x == s[0] then s
    else if Less(x, s[0]) then
      assert forall j :: 0 < j < |s| ==> Less(x, s[j]) by {
        forall j | 0 < j < |s| ensures Less(x, s[j]) { LessTransitive(x, s[0], s[j]); }
      }
      [x] + s
    else
      var rest := InsertLabel(s[1..], x);
      LessTotal(x, s[0]);
      assert forall j :: 0 <= j < |rest| ==> Less(s[0], rest[j]) by {
        forall j | 0 <= j < |rest| ensures Less(s[0], rest[j]) {
          assert rest[j] in rest;
          if rest[j] != x {
            var k :| 0 <= k < |s[1..]| && s[1..][k] == rest[j];
            assert s[k + 1] == rest[j];
          }
        }
      }
      [s[0]] + rest
  }

  /** The categories pandas infers for a column of labels: its distinct labels, sorted. */
  function Categories(labels: seq<string>): (cats: seq<string>)
    ensures StrictlySorted(cats)
    ensures forall p :: p in cats <==> p in labels
    decreases |labels|
  {
    if |labels| == 0 then []
    else
      var cats := InsertLabel(Categories(labels[1..]), labels[0]);
      assert forall p :: p in labels <==> p == labels[0] || p in labels[1..] by {
        assert labels == [labels[0]] + labels[1..];
      }
      cats
  }

  /** The position of `x` in a list of distinct labels. */
  function IndexOf(s: seq<string>, x: string): (i: nat)
    requires x in s
    ensures i < |s| && s[i] == x
    ensures forall j :: 0 <= j < i ==> s[j] != x
    decreases |s|
  {
    if s[0] == x then 0 else 1 + IndexOf(s[1..], x)
  }

  /** The code pandas gives one label of the column. */
  function CodeOf(labels: seq<string>, p: string): (code: nat)
    requires p in labels
    ensures code < |Categories(labels)| && Categories(labels)[code] == p
  {
    IndexOf(Categories(labels), p)
  }

  /** `cat.codes`: one code per row, the row's label's position among the categories. */
  function Codes(labels: seq<string>): (codes: seq<int>)
    ensures |codes| == |labels|
    ensures forall i :: 0 <= i < |labels| ==> 0 <= codes[i] < |Categories(labels)|
  {
    seq(|labels|, i requires 0 <= i < |labels| => CodeOf(labels, labels[i]))
  }

  /** The number of distinct labels in the column. */
  function DistinctCount(labels: seq<string>): nat
  {
    |set p | p in labels|
  }

  /** A list without duplicates has as many elements as the set of its elements. */
  lemma {:induction false} DistinctCard(s: seq<string>)
    requires StrictlySorted(s)
    ensures |set p | p in s| == |s|
    decreases |s|
  {
    if |s| > 0 {
      var tail := s[1..];
      assert StrictlySorted(tail);
      DistinctCard(tail);
      assert s[0] !in tail by {
        LessIrreflexive(s[0]);
        forall j | 0 <= j < |tail| ensures tail[j] != s[0] { assert Less(s[0], s[j + 1]); }
      }
      assert (set p | p in s) == (set p | p in tail) + {s[0]} by {
        assert s == [s[0]] + tail;
      }
    }
  }

  /** There are exactly as many categories as distinct labels, so codes lie in [0, k). */
  lemma CategoriesCount(labels: seq<string>)
    ensures |Categories(labels)| == DistinctCount(labels)
  {
    var cats := Categories(labels);
    DistinctCard(cats);
    assert (set p | p in cats) == (set p | p in labels);
  }

  /** Codes lie in [0, k) for k distinct labels. */
  lemma CodesInRange(labels: seq<string>, i: int)
    requires 0 <= i < |labels|
    ensures 0 <= Codes(labels)[i] < DistinctCount(labels)
  {
    CategoriesCount(labels);
  }

  /** Two rows get the same code exactly when they carry the same label. */
  lemma CodesEqualIff(labels: seq<string>, i: int, j: int)
    requires 0 <= i < |labels| && 0 <= j < |labels|
    ensures Codes(labels)[i] == Codes(labels)[j] <==> labels[i] == labels[j]
  {
  }

  /** The codes follow the sorted order of the labels. */
  lemma CodesMonotonic(labels: seq<string>, i: int, j: int)
    requires 0 <= i < |labels| && 0 <= j < |labels|
    ensures Less(labels[i], labels[j]) <==> Codes(labels)[i] < Codes(labels)[j]
  {
    var cats := Categories(labels);
    var ci, cj := Codes(labels)[i], Codes(labels)[j];
    if ci < cj {
      assert Less(cats[ci], cats[cj]);
    } else if ci == cj {
      LessIrreflexive(labels[i]);
    } else {
      assert Less(cats[cj], cats[ci]);
      LessAsymmetric(labels[j], labels[i]);
    }
  }

  /** Every code in [0, k) is used by some row: the codes are dense. */
  lemma CodesDense(labels: seq<string>, c: int)
    requires 0 <= c < DistinctCount(labels)
    ensures exists i :: 0 <= i < |labels| && Codes(labels)[i] == c
  {
    CategoriesCount(labels);
    var cats := Categories(labels);
    assert cats[c] in labels;
    var i :| 0 <= i < |labels| && labels[i] == cats[c];
    assert Codes(labels)[i] == IndexOf(cats, cats[c]);
    if IndexOf(cats, cats[c]) != c {
      var k := IndexOf(cats, cats[c]);
      if k < c { assert Less(cats[k], cats[c]); LessIrreflexive(cats[c]); }
    }
  }

  /** The distinct labels of the column that sort before `p`. */
  function SmallerLabels(labels: seq<string>, p: string): set<string>
  {
    set q | q in labels && Less(q, p)
  }

  /**
    An independent description of the code: a row's code is the number of
    distinct labels of the column that sort before its own label.
   */
  lemma {:induction false} CodeCountsSmallerLabels(labels: seq<string>, i: int)
    requires 0 <= i < |labels|
    ensures Codes(labels)[i] == |SmallerLabels(labels, labels[i])|
  {
    var cats := Categories(labels);
    var p := labels[i];
    var k := CodeOf(labels, p);
    var prefix := cats[..k];
    assert StrictlySorted(prefix);
    DistinctCard(prefix);
    var smaller := SmallerLabels(labels, p);
    assert smaller == (set q | q in prefix) by {
      forall q | q in labels && Less(q, p) ensures q in prefix {
        var m :| 0 <= m < |cats| && cats[m] == q;
        if m >= k {
          if m == k { LessIrreflexive(p); } else { LessAsymmetric(p, q); }
        }
        assert prefix[m] == q;
      }
      forall q | q in prefix ensures q in labels && Less(q, p) {
        var m :| 0 <= m < k && prefix[m] == q;
        assert cats[m] == q;
      }
    }
    assert |smaller| == |prefix| == k;
    assert Codes(labels)[i] == k;
  }
}
