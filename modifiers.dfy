/** Removing every decimate modifier from one object's modifier stack
    (`remove_all_decimate_modifiers`): the stack is scanned once, each decimate modifier
    is removed where it stands, and the number removed is returned. A removal the host
    refuses raises and ends the scan, leaving the removals already made in place. */
module Modifiers {
  import opened Common
  import opened Host

  /** The number of decimate modifiers in a stack. */
  function CountDecimate(s: seq<Modifier>): (n: nat)
    ensures n <= |s|
  {
    if s == [] then 0
    else (if IsDecimate(s[0]) then 1 else 0) + CountDecimate(s[1..])
  }

  /** A stack has no decimate modifier to count exactly when none of its entries is one. */
  lemma {:induction false} CountZero(s: seq<Modifier>)
    ensures CountDecimate(s) == 0 <==> forall j :: 0 <= j < |s| ==> !IsDecimate(s[j])
  {
    if s != [] {
      CountZero(s[1..]);
      assert forall j :: 1 <= j < |s| ==> s[j] == s[1..][j - 1];
    }
  }

  /** The stack with every decimate modifier taken out, the others kept in their order. */
  function WithoutDecimate(s: seq<Modifier>): (w: seq<Modifier>)
    ensures forall j :: 0 <= j < |w| ==> !IsDecimate(w[j])
    ensures |w| + CountDecimate(s) == |s|
  {
    if s == [] then []
    else if IsDecimate(s[0]) then WithoutDecimate(s[1..])
    else [s[0]] + WithoutDecimate(s[1..])
  }

  /** The stack with its first r decimate modifiers taken out: what a scan leaves when
      its (r+1)th removal raises. */
  function RemoveFirstDecimates(s: seq<Modifier>, r: nat): seq<Modifier>
  {
    if s == [] then []
    else if IsDecimate(s[0]) && r > 0 then RemoveFirstDecimates(s[1..], r - 1)
    else [s[0]] + RemoveFirstDecimates(s[1..], r)
  }

  /** The host calls of a scan that finds n decimate modifiers: the 0th, 1st, ...
      removal on the object. */
  function RemovalOps(n: nat): (ops: seq<ObjectOp>)
    ensures |ops| == n
    ensures forall r :: 0 <= r < n ==> ops[r] == RemoveModifier(r)
  {
    seq(n, r requires 0 <= r < n => RemoveModifier(r))
  }

  lemma {:induction false} CountAppend(a: seq<Modifier>, b: seq<Modifier>)
    ensures CountDecimate(a + b) == CountDecimate(a) + CountDecimate(b)
  {
    if a != [] {
      assert (a + b)[0] == a[0];
      assert (a + b)[1..] == a[1..] + b;
      CountAppend(a[1..], b);
    } else {
      assert a + b == b;
    }
  }

  lemma {:induction false} WithoutAppend(a: seq<Modifier>, b: seq<Modifier>)
    ensures WithoutDecimate(a + b) == WithoutDecimate(a) + WithoutDecimate(b)
  {
    if a != [] {
      assert (a + b)[0] == a[0];
      assert (a + b)[1..] == a[1..] + b;
      WithoutAppend(a[1..], b);
      var wa, wb := WithoutDecimate(a[1..]), WithoutDecimate(b);
      assert [a[0]] + (wa + wb) == ([a[0]] + wa) + wb;
    } else {
      assert a + b == b;
    }
  }

  /** Removing none of the decimate modifiers leaves the stack as it was. */
  lemma {:induction false} RemoveNone(s: seq<Modifier>)
    ensures RemoveFirstDecimates(s, 0) == s
  {
    if s != [] {
      RemoveNone(s[1..]);
    }
  }

  /** Removing as many decimate modifiers as a prefix holds clears that prefix of them
      and leaves the rest of the stack untouched. */
  lemma {:induction false} RemovePrefix(a: seq<Modifier>, b: seq<Modifier>)
    ensures RemoveFirstDecimates(a + b, CountDecimate(a)) == WithoutDecimate(a) + b
  {
    if a == [] {
      RemoveNone(b);
      assert a + b == b;
    } else {
      assert (a + b)[1..] == a[1..] + b;
      RemovePrefix(a[1..], b);
      if !IsDecimate(a[0]) {
        assert [a[0]] + (WithoutDecimate(a[1..]) + b) == ([a[0]] + WithoutDecimate(a[1..])) + b;
      }
    }
  }

  /** The removals pass over a stretch with no decimate modifier in it. */
  lemma {:induction false} RemoveAfterClean(a: seq<Modifier>, b: seq<Modifier>, r: nat)
    requires CountDecimate(a) == 0
    ensures RemoveFirstDecimates(a + b, r) == a + RemoveFirstDecimates(b, r)
  {
    if a == [] {
      assert a + b == b;
    } else {
      assert (a + b)[0] == a[0];
      assert (a + b)[1..] == a[1..] + b;
      RemoveAfterClean(a[1..], b, r);
      assert [a[0]] + (a[1..] + RemoveFirstDecimates(b, r)) == a + RemoveFirstDecimates(b, r);
    }
  }

  /** Removing all of them is the filter. */
  lemma RemoveAll(s: seq<Modifier>)
    ensures RemoveFirstDecimates(s, CountDecimate(s)) == WithoutDecimate(s)
  {
    RemovePrefix(s, []);
    assert s + [] == s;
    assert WithoutDecimate(s) + [] == WithoutDecimate(s);
  }

  /** Only decimate modifiers go: every other modifier is kept exactly as often as it
      occurred, and every decimate one is gone. */
  lemma {:induction false} WithoutKeepsOthers(s: seq<Modifier>)
    ensures forall m :: !IsDecimate(m) ==> multiset(WithoutDecimate(s))[m] == multiset(s)[m]
    ensures forall m :: IsDecimate(m) ==> multiset(WithoutDecimate(s))[m] == 0
  {
    if s != [] {
      WithoutKeepsOthers(s[1..]);
      assert s == [s[0]] + s[1..];
      assert multiset(s) == multiset([s[0]]) + multiset(s[1..]);
    }
  }

  /** Filtering twice is filtering once, and nothing is left to remove. */
  lemma {:induction false} WithoutIdempotent(s: seq<Modifier>)
    ensures WithoutDecimate(WithoutDecimate(s)) == WithoutDecimate(s)
    ensures CountDecimate(WithoutDecimate(s)) == 0
  {
    if s != [] {
      WithoutIdempotent(s[1..]);
      if !IsDecimate(s[0]) {
        var w := WithoutDecimate(s[1..]);
        assert ([s[0]] + w)[1..] == w;
      }
    }
  }

  /** The host accepts the first c removals on an object. */
  predicate AcceptsRemovals(raising: set<ObjectOp>, c: nat) {
    forall r: nat :: r < c ==> RemoveModifier(r) !in raising
  }

  /** One more modifier looked at by the scan. */
  lemma ScanStep(s: seq<Modifier>, j: nat)
    requires j < |s|
    ensures CountDecimate(s[..j + 1]) == CountDecimate(s[..j]) + (if IsDecimate(s[j]) then 1 else 0)
    ensures WithoutDecimate(s[..j + 1]) == WithoutDecimate(s[..j]) + (if IsDecimate(s[j]) then [] else [s[j]])
  {
    assert s[..j + 1] == s[..j] + [s[j]];
    CountAppend(s[..j], [s[j]]);
    WithoutAppend(s[..j], [s[j]]);
  }

  /** A decimate modifier not yet looked at is one of the n the scan will try to remove. */
  lemma ScanAhead(s: seq<Modifier>, j: nat)
    requires j < |s| && IsDecimate(s[j])
    ensures CountDecimate(s[..j]) < CountDecimate(s)
  {
    assert s == s[..j] + s[j..];
    CountAppend(s[..j], s[j..]);
    assert s[j..][0] == s[j];
  }

  /** The scan's stack after one more modifier: a removal at position |w| or a step past it. */
  lemma ScanShift(w: seq<Modifier>, t: seq<Modifier>)
    requires |t| > 0
    ensures (w + t)[|w|] == t[0]
    ensures (w + t)[..|w|] + (w + t)[|w| + 1..] == w + t[1..]
    ensures (w + [t[0]]) + t[1..] == w + t
  {
    assert (w + t)[..|w|] == w;
    assert (w + t)[|w| + 1..] == t[1..];
    assert t == [t[0]] + t[1..];
  }

  /** The modifier at the scan's position, and the stack after the scan has looked
      at it: removed when it is a decimate modifier, stepped past otherwise. */
  lemma ScanAt(s: seq<Modifier>, j: nat)
    requires j < |s|
    ensures var w := WithoutDecimate(s[..j]);
            var t := w + s[j..];
            && t[|w|] == s[j]
            && (IsDecimate(s[j]) ==>
                  && t[..|w|] + t[|w| + 1..] == WithoutDecimate(s[..j + 1]) + s[j + 1..]
                  && |WithoutDecimate(s[..j + 1])| == |w|
                  && CountDecimate(s[..j + 1]) == CountDecimate(s[..j]) + 1)
            && (!IsDecimate(s[j]) ==>
                  && t == WithoutDecimate(s[..j + 1]) + s[j + 1..]
                  && |WithoutDecimate(s[..j + 1])| == |w| + 1
                  && CountDecimate(s[..j + 1]) == CountDecimate(s[..j]))
  {
    var w := WithoutDecimate(s[..j]);
    ScanShift(w, s[j..]);
    assert s[j..][0] == s[j] && s[j..][1..] == s[j + 1..];
    ScanStep(s, j);
  }

  /** A removal the host accepts extends the accepted ones. A helper for the removal
      loop: it only unfolds Accepts. */
  lemma AcceptsOneMore(raising: set<ObjectOp>, c: nat)
    requires AcceptsRemovals(raising, c) && RemoveModifier(c) !in raising
    ensures AcceptsRemovals(raising, c + 1)
  {
  }

  /** The state the scan stops in, on both of its exits. */
  lemma ScanStop(s: seq<Modifier>, j: nat, raising: set<ObjectOp>)
    requires j <= |s|
    requires AcceptsRemovals(raising, CountDecimate(s[..j]))
    requires j < |s| ==> IsDecimate(s[j]) && RemoveModifier(CountDecimate(s[..j])) in raising
    ensures var n := CountDecimate(s);
            var p := FirstIn(RemovalOps(n), raising);
            && p == CountDecimate(s[..j])
            && RemoveFirstDecimates(s, p) == WithoutDecimate(s[..j]) + s[j..]
            && (p < n <==> j < |s|)
  {
    var n := CountDecimate(s);
    var c := CountDecimate(s[..j]);
    RemovePrefix(s[..j], s[j..]);
    assert s[..j] + s[j..] == s;
    if j < |s| {
      ScanAhead(s, j);
      assert RemovalOps(n)[c] == RemoveModifier(c);
    } else {
      assert s[..j] == s;
    }
  }

  /** remove_all_decimate_modifiers on one object. With n the number of decimate
      modifiers on it and p how many of the removals RemoveModifier(0), ...,
      RemoveModifier(n-1) the host accepts before one raises: the first p decimate
      modifiers are gone, p is returned, and the (p+1)th removal is the call that raised
      when p < n. When nothing raises, p is n and the stack is the filtered stack. */
  method RemoveAllDecimateModifiers(obj: BlendObject) returns (removed: nat, raised: Option<ObjectOp>)
    modifies obj`modifiers
    ensures var n := CountDecimate(old(obj.modifiers));
            var p := FirstIn(RemovalOps(n), obj.raisesOn);
            && removed == p
            && obj.modifiers == RemoveFirstDecimates(old(obj.modifiers), p)
            && raised == (if p < n then Some(RemoveModifier(p)) else None)
  {
    ghost var s := obj.modifiers;
    ghost var j := 0;
    var i := 0;
    removed := 0;
    while i < |obj.modifiers|
      invariant 0 <= j <= |s|
      invariant removed == CountDecimate(s[..j])
      invariant obj.modifiers == WithoutDecimate(s[..j]) + s[j..]
      invariant i == |WithoutDecimate(s[..j])|
      invariant AcceptsRemovals(obj.raisesOn, removed)
      decreases |s| - j
    {
      ScanAt(s, j);
      if obj.modifiers[i].Type() == "DECIMATE" {
        if RemoveModifier(removed) in obj.raisesOn {
          ScanStop(s, j, obj.raisesOn);
          raised := Some(RemoveModifier(removed));
          return;
        }
        AcceptsOneMore(obj.raisesOn, removed);
        obj.modifiers := obj.modifiers[..i] + obj.modifiers[i + 1..];
        removed := removed + 1;
      } else {
        i := i + 1;
      }
      j := j + 1;
    }
    ScanStop(s, j, obj.raisesOn);
    raised := None;
  }

  /** The loop as written, on Python's list semantics: `for m in modifiers` walks an
      index over the list while `remove` shifts the rest of the list down, so the
      modifier right after a removed one is never looked at. Returns the stack and the
      count it ends with. */
  function RemoveWhileIterating(s: seq<Modifier>, idx: nat, count: nat): (r: (seq<Modifier>, nat))
    ensures |r.0| + r.1 == |s| + count
    decreases |s| - idx
  {
    if idx >= |s| then (s, count)
    else if IsDecimate(s[idx]) then RemoveWhileIterating(s[..idx] + s[idx + 1..], idx + 1, count + 1)
    else RemoveWhileIterating(s, idx + 1, count)
  }

  /** Two decimate modifiers in a row, iterated as a Python list: the loop as written
      removes the first, skips the second, and reports one removal. */
  lemma AdjacentDecimateSurvives(d1: DecimateSettings, d2: DecimateSettings)
    ensures var s := [Decimate(d1), Decimate(d2)];
            && RemoveWhileIterating(s, 0, 0) == ([Decimate(d2)], 1)
            && CountDecimate(RemoveWhileIterating(s, 0, 0).0) == 1
            && RemoveFirstDecimates(s, CountDecimate(s)) == []
  {
    var s := [Decimate(d1), Decimate(d2)];
    assert s[..0] + s[1..] == [Decimate(d2)];
    assert RemoveWhileIterating(s, 0, 0) == RemoveWhileIterating([Decimate(d2)], 1, 1);
    RemoveAll(s);
    assert WithoutDecimate(s) == WithoutDecimate(s[1..]);
    assert s[1..][1..] == [];
  }
}
