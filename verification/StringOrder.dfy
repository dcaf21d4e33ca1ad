/** Lexicographic order on strings, and sorting by it. */
module StringOrder {

  predicate Less(a: string, b: string) {
    if b == [] then false
    else if a == [] then true
    else if a[0] != b[0] then a[0] < b[0]
    else Less(a[1..], b[1..])
  }

  lemma {:induction false} LessTotal(a: string, b: string)
    ensures Less(a, b) || Less(b, a) || a == b
    ensures !(Less(a, b) && Less(b, a)) && !Less(a, a)
  {
    if a != [] && b != [] && a[0] == b[0] {
      LessTotal(a[1..], b[1..]);
      assert a == [a[0]] + a[1..] && b == [b[0]] + b[1..];
    }
    if a != [] {
      LessTotalSelf(a);
    }
  }

  lemma {:induction false} LessTotalSelf(a: string)
    ensures !Less(a, a)
  {
    if a != [] {
      LessTotalSelf(a[1..]);
    }
  }

  lemma {:induction false} LessTransitive(a: string, b: string, c: string)
    requires Less(a, b) && Less(b, c)
    ensures Less(a, c)
  {
    if a != [] && a[0] == b[0] == c[0] {
      LessTransitive(a[1..], b[1..], c[1..]);
    }
  }

  ghost predicate Ascending(s: seq<string>) {
    forall i, j :: 0 <= i < j < |s| ==> Less(s[i], s[j])
  }

  /** `sort.Strings`, for distinct strings. */
  method SortStrings(s: seq<string>) returns (r: seq<string>)
    requires forall i, j :: 0 <= i < j < |s| ==> s[i] != s[j]
    ensures Ascending(r) && |r| == |s| && forall x :: x in r <==> x in s
  {
    hide Less;
    r := [];
    for i := 0 to |s|
      invariant Ascending(r) && |r| == i && forall x :: x in r <==> x in s[..i]
    {
      assert s[..i + 1] == s[..i] + [s[i]];
      r := Insert(r, s[i]);
    }
    assert s[..|s|] == s;
  }

  method Insert(r: seq<string>, x: string) returns (r': seq<string>)
    requires Ascending(r) && x !in r
    ensures Ascending(r') && |r'| == |r| + 1 && forall y :: y in r' <==> y in r || y == x
  {
    hide Less;
    var k := |r|;
    while k > 0 && Less(x, r[k - 1])
      invariant 0 <= k <= |r| && forall j :: k <= j < |r| ==> Less(x, r[j])
    {
      k := k - 1;
    }
    if k > 0 {
      LessTotal(r[k - 1], x);
      forall j | 0 <= j < k - 1 ensures Less(r[j], x) {
        LessTransitive(r[j], r[k - 1], x);
      }
    }
    r' := r[..k] + [x] + r[k..];
  }
}
