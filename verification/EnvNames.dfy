/** Sorted lists of names: the order of strcmp, sorting and removing duplicates. */
module EnvNames {

  type Name = string

  /** strcmp(a, b) < 0. */
  predicate Less(a: Name, b: Name) {
    b != [] && (a == [] || a[0] < b[0] || (a[0] == b[0] && Less(a[1..], b[1..])))
  }

  lemma {:induction false} LessIsTotal(a: Name, b: Name)
    ensures (Less(a, b) && a != b && !Less(b, a)) || (Less(b, a) && a != b && !Less(a, b)) || (a == b && !Less(a, b))
  {
    if a != [] && b != [] && a[0] == b[0] {
      LessIsTotal(a[1..], b[1..]);
      assert a == [a[0]] + a[1..] && b == [b[0]] + b[1..];
    }
  }

  lemma {:induction false} LessIsTransitive(a: Name, b: Name, c: Name)
    requires Less(a, b) && Less(b, c)
    ensures Less(a, c)
  {
    if a != [] && a[0] == b[0] && b[0] == c[0] {
      LessIsTransitive(a[1..], b[1..], c[1..]);
    }
  }

  ghost predicate Sorted(s: seq<Name>) {
    forall i, j :: 0 <= i < j < |s| ==> !Less(s[j], s[i])
  }

  ghost predicate StrictlySorted(s: seq<Name>) {
    forall i, j :: 0 <= i < j < |s| ==> Less(s[i], s[j])
  }

  function Insert(s: seq<Name>, x: Name): (r: seq<Name>)
    ensures multiset(r) == multiset(s) + multiset{x}
  {
    if s == [] || !Less(s[0], x) then [x] + s
    else
      assert s == [s[0]] + s[1..];
      [s[0]] + Insert(s[1..], x)
  }

  /** What qsort leaves, as equal names cannot be told apart. */
  function Sort(s: seq<Name>): (r: seq<Name>)
    ensures multiset(r) == multiset(s) && |r| == |s|
  {
    if s == [] then []
    else
      assert s == [s[0]] + s[1..];
      var r := Insert(Sort(s[1..]), s[0]);
      assert |multiset(r)| == |multiset(s)|;
      r
  }

  lemma {:induction false} InsertSorted(s: seq<Name>, x: Name)
    requires Sorted(s)
    ensures Sorted(Insert(s, x))
  {
    var r := Insert(s, x);
    if s == [] || !Less(s[0], x) {
      forall j | 0 < j < |r| ensures !Less(r[j], x) {
        assert r[j] == s[j - 1];
        LessIsTotal(s[0], x);
        if Less(r[j], x) && s[0] != x {
          LessIsTransitive(r[j], x, s[0]);
        }
      }
    } else {
      InsertSorted(s[1..], x);
      forall j | 0 < j < |r| ensures !Less(r[j], s[0]) {
        assert r[j] in multiset(Insert(s[1..], x));
        LessIsTotal(s[0], x);
        assert r[j] == x || r[j] in s[1..];
      }
    }
  }

  lemma {:induction false} SortSorted(s: seq<Name>)
    ensures Sorted(Sort(s))
  {
    if s != [] {
      SortSorted(s[1..]);
      InsertSorted(Sort(s[1..]), s[0]);
    }
  }

  /** `s` with each run of equal names cut down to one. */
  function Dedup(s: seq<Name>): (r: seq<Name>)
    ensures s != [] ==> r != [] && r[|r| - 1] == s[|s| - 1]
    ensures |r| <= |s|
  {
    if |s| <= 1 then s
    else if s[|s| - 2] == s[|s| - 1] then Dedup(s[..|s| - 1])
    else Dedup(s[..|s| - 1]) + [s[|s| - 1]]
  }

  lemma DedupOne(s: seq<Name>)
    requires s != []
    ensures Dedup(s[..1]) == [s[0]]
  {
  }

  lemma DedupStep(s: seq<Name>, i: nat, d: seq<Name>)
    requires 1 <= i < |s| && d == Dedup(s[..i])
    ensures d != [] && d[|d| - 1] == s[i - 1]
    ensures Dedup(s[..i + 1]) == if s[i - 1] == s[i] then d else d + [s[i]]
  {
    assert s[..i + 1][..i] == s[..i];
  }

  lemma {:induction false} DedupKeeps(s: seq<Name>)
    requires Sorted(s)
    ensures StrictlySorted(Dedup(s)) && forall n :: n in Dedup(s) <==> n in s
  {
    if |s| > 1 {
      var t := s[..|s| - 1];
      var x := s[|s| - 1];
      DedupKeeps(t);
      assert s == t + [x];
      assert t[|t| - 1] == s[|s| - 2];
      if s[|s| - 2] != x {
        LessIsTotal(s[|s| - 2], x);
        var d := Dedup(t);
        forall i | 0 <= i < |d| ensures Less(d[i], x) {
          if i < |d| - 1 {
            LessIsTransitive(d[i], d[|d| - 1], x);
          }
        }
      }
    }
  }

  /** Two strictly sorted lists of the same names are the same list. */
  lemma {:induction false} StrictlySortedUnique(s: seq<Name>, t: seq<Name>)
    requires StrictlySorted(s) && StrictlySorted(t) && forall n :: n in s <==> n in t
    ensures s == t
  {
    assert s != [] ==> s[0] in t;
    assert t != [] ==> t[0] in s;
    if s != [] {
      LessIsTotal(s[0], t[0]);
      assert s[0] == t[0] && s == [s[0]] + s[1..] && t == [t[0]] + t[1..];
      forall n ensures n in s[1..] <==> n in t[1..] {
        LessIsTotal(s[0], n);
        assert n in s[1..] <==> n in s && n != s[0];
        assert n in t[1..] <==> n in t && n != t[0];
      }
      StrictlySortedUnique(s[1..], t[1..]);
    }
  }
}
