/** The environment variables that are private to each coroutine: one sorted list of
    names for all, and for each coroutine that uses it a copy with its values. */
module EnvTable {
  import opened EnvNames
  import opened Wrappers

  type Value = string

  datatype SysEnv = SysEnv(name: Name, value: Option<Value>)

  function NamesOf(s: seq<SysEnv>): (r: seq<Name>)
    ensures |r| == |s| && forall i :: 0 <= i < |s| ==> r[i] == s[i].name
  {
    seq(|s|, i requires 0 <= i < |s| => s[i].name)
  }

  /** The names among `names` that are neither NULL nor empty. */
  function Given(names: seq<Option<Name>>): seq<Name> {
    if names == [] then []
    else Given(names[..|names| - 1]) + (var n := names[|names| - 1]; if n.Some? && n.value != [] then [n.value] else [])
  }

  lemma {:induction false} GivenMembers(names: seq<Option<Name>>, n: Name)
    ensures n in Given(names) <==> n != [] && Some(n) in names
  {
    if names != [] {
      GivenMembers(names[..|names| - 1], n);
      assert names == names[..|names| - 1] + [names[|names| - 1]];
    }
  }

  /** stCoSysEnvArr_t. */
  class SysEnvArr {
    var data: array?<SysEnv>
    var cnt: nat

    constructor ()
      ensures data == null && cnt == 0
    {
      data, cnt := null, 0;
    }

    ghost predicate Shape()
      reads this
    {
      if data == null then cnt == 0 else cnt <= data.Length
    }

    ghost function Entries(): seq<SysEnv>
      requires Shape()
      reads this, data
    {
      if data == null then [] else data[..cnt]
    }

    /** The names are in strictly ascending order: a search by halves finds them. */
    ghost predicate Valid()
      reads this, data
    {
      Shape() && StrictlySorted(NamesOf(Entries()))
    }

    /** The loop that copies the usable names. */
    method Collect(names: seq<Option<Name>>)
      requires data != null && data.Length == |names| && cnt == 0
      modifies `cnt, data
      ensures Shape()
      ensures Entries() == seq(|Given(names)|, i requires 0 <= i < |Given(names)| => SysEnv(Given(names)[i], None))
    {
      for i := 0 to |names|
        invariant cnt == |Given(names[..i])| <= i
        invariant forall k :: 0 <= k < cnt ==> data[k] == SysEnv(Given(names[..i])[k], None)
      {
        assert names[..i + 1][..i] == names[..i];
        if names[i].Some? && names[i].value != [] {
          data[cnt] := SysEnv(names[i].value, None);
          cnt := cnt + 1;
        }
      }
      assert names[..|names|] == names;
    }

    /** qsort of a list without values. */
    method Qsort()
      requires data != null && Shape() && forall k :: 0 <= k < cnt ==> data[k].value == None
      modifies data
      ensures NamesOf(Entries()) == Sort(NamesOf(old(Entries()))) && forall k :: 0 <= k < cnt ==> data[k].value == None
    {
      var names := Sort(NamesOf(data[..cnt]));
      for i := 0 to cnt
        invariant forall k :: 0 <= k < i ==> data[k] == SysEnv(names[k], None)
      {
        data[i] := SysEnv(names[i], None);
      }
      assert NamesOf(Entries()) == names;
    }

    /** The two pointers lp and lq that squeeze out duplicates; `count` is what is left. */
    static method Squeeze(data: array<SysEnv>, cnt: nat, ghost names: seq<Name>) returns (count: nat)
      requires 1 < cnt == |names| && cnt <= data.Length
      requires forall k :: 0 <= k < cnt ==> data[k] == SysEnv(names[k], None)
      modifies data
      ensures count == |Dedup(names)| && forall k :: 0 <= k < count ==> data[k] == SysEnv(Dedup(names)[k], None)
    {
      hide Dedup;
      DedupOne(names);
      ghost var d := Dedup(names[..1]);
      var lp, lq := 0, 1;
      for i := 1 to cnt
        invariant lq == i && lp < i && |d| == lp + 1 && d == Dedup(names[..i])
        invariant forall k :: 0 <= k <= lp ==> data[k] == SysEnv(d[k], None)
        invariant forall k :: i <= k < cnt ==> data[k] == SysEnv(names[k], None)
      {
        DedupStep(names, i, d);
        if data[lp].name != data[lq].name {
          lp := lp + 1;
          if lp != lq {
            data[lp] := data[lq];
          }
          d := d + [names[i]];
        }
        lq := lq + 1;
      }
      assert names[..cnt] == names;
      count := lp + 1;
    }

    /** bsearch by name: the index of the entry, or -1. */
    method Bsearch(n: Name) returns (e: int)
      requires Valid()
      ensures e == -1 || (0 <= e < cnt && data != null && data[e].name == n)
      ensures e == -1 <==> n !in NamesOf(Entries())
    {
      var lo, hi := 0, cnt;
      while lo < hi
        invariant 0 <= lo <= hi <= cnt
        invariant forall k :: 0 <= k < cnt && (k < lo || hi <= k) ==> NamesOf(Entries())[k] != n
      {
        ghost var names := NamesOf(Entries());
        var mid := (lo + hi) / 2;
        assert names[mid] == data[mid].name;
        LessIsTotal(data[mid].name, n);
        if data[mid].name == n {
          return mid;
        } else if Less(data[mid].name, n) {
          forall k | 0 <= k <= mid ensures names[k] != n {
            if k < mid { LessIsTotal(n, names[mid]); }
          }
          lo := mid + 1;
        } else {
          forall k | mid <= k < cnt ensures names[k] != n {
            if mid < k { LessIsTotal(names[mid], n); }
          }
          hi := mid;
        }
      }
      e := -1;
    }

    /** dup_co_sysenv_arr: entries of its own, the same as here. */
    method DupCoSysenvArr() returns (lp: SysEnvArr)
      requires Shape()
      ensures fresh(lp) && lp.Shape() && (lp.data != null ==> fresh(lp.data)) && lp.Entries() == Entries()
    {
      lp := new SysEnvArr();
      if cnt != 0 {
        var d := new SysEnv[cnt](_ => SysEnv([], None));
        for i := 0 to cnt
          invariant forall k :: 0 <= k < i ==> d[k] == data[k]
        {
          d[i] := data[i];
        }
        lp.data := d;
        lp.cnt := cnt;
      }
    }

    /** Overwrites the value of entry `e`. */
    method Assign(e: nat, v: Option<Value>)
      requires Valid() && e < cnt
      modifies data
      ensures Valid() && TableOf(Entries()) == old(TableOf(Entries()))[old(data[e].name) := v]
    {
      TableUpdated(Entries(), e, v);
      ghost var s := Entries();
      data[e] := SysEnv(data[e].name, v);
      assert Entries() == s[e := SysEnv(s[e].name, v)];
    }

    /** qsort and the squeeze, if there is more than one name. */
    method Tidy()
      requires data != null && Shape() && forall k :: 0 <= k < cnt ==> data[k].value == None
      modifies `cnt, data
      ensures Shape() && NamesOf(Entries()) == Dedup(Sort(NamesOf(old(Entries()))))
      ensures forall k :: 0 <= k < cnt ==> data[k].value == None
    {
      hide Dedup, Sort, StrictlySorted;
      ghost var given := NamesOf(Entries());
      if cnt > 1 {
        Qsort();
        cnt := Squeeze(data, cnt, Sort(given));
        assert NamesOf(Entries()) == Dedup(Sort(given));
      } else {
        TidyOne(given);
      }
    }

    /** co_set_env_list on the list of all: from now on it holds exactly the usable
        names, in strict order.  A second call changes nothing. */
    method CoSetEnvList(names: seq<Option<Name>>)
      requires Shape()
      modifies this, if data == null then {} else {data}
      ensures Shape() && data != null
      ensures old(data) != null ==> data == old(data) && Entries() == old(Entries())
      ensures old(data) == null ==>
                && fresh(data) && Valid() && (forall k :: 0 <= k < cnt ==> data[k].value == None)
                && forall n :: n in NamesOf(Entries()) <==> n != [] && Some(n) in names
    {
      hide Dedup, Sort, Given;
      if data != null {
        return;
      }
      data := new SysEnv[|names|](_ => SysEnv([], None));
      Collect(names);
      ghost var given := Given(names);
      assert NamesOf(Entries()) == given;
      Tidy();
      TidyKeeps(given);
      forall n ensures n in given <==> n != [] && Some(n) in names {
        GivenMembers(names, n);
      }
    }
  }

  // ----- tables

  /** The values by name. */
  function TableOf(s: seq<SysEnv>): map<Name, Option<Value>> {
    if s == [] then map[] else TableOf(s[..|s| - 1])[s[|s| - 1].name := s[|s| - 1].value]
  }

  lemma {:induction false} TableHolds(s: seq<SysEnv>)
    requires StrictlySorted(NamesOf(s))
    ensures forall n :: n in TableOf(s) <==> n in NamesOf(s)
    ensures forall i :: 0 <= i < |s| ==> s[i].name in TableOf(s) && TableOf(s)[s[i].name] == s[i].value
  {
    if s != [] {
      var t := s[..|s| - 1];
      assert NamesOf(s) == NamesOf(t) + [s[|s| - 1].name];
      assert StrictlySorted(NamesOf(t)) by {
        assert forall i :: 0 <= i < |t| ==> NamesOf(t)[i] == NamesOf(s)[i];
      }
      TableHolds(t);
      forall i | 0 <= i < |t| ensures s[i].name != s[|s| - 1].name {
        LessIsTotal(NamesOf(s)[i], NamesOf(s)[|s| - 1]);
      }
    }
  }

  lemma TableUpdated(s: seq<SysEnv>, i: nat, v: Option<Value>)
    requires i < |s| && StrictlySorted(NamesOf(s))
    ensures NamesOf(s[i := SysEnv(s[i].name, v)]) == NamesOf(s)
    ensures TableOf(s[i := SysEnv(s[i].name, v)]) == TableOf(s)[s[i].name := v]
  {
    var t := s[i := SysEnv(s[i].name, v)];
    assert NamesOf(t) == NamesOf(s);
    TableHolds(s);
    TableHolds(t);
    forall n | n in TableOf(s) ensures TableOf(t)[n] == TableOf(s)[s[i].name := v][n] {
      var k :| 0 <= k < |s| && NamesOf(s)[k] == n;
      assert t[k].name in TableOf(t) && s[k].name in TableOf(s);
      if k != i {
        LessIsTotal(NamesOf(s)[k], NamesOf(s)[i]);
      }
    }
  }

  lemma TidyOne(s: seq<Name>)
    requires |s| <= 1
    ensures Dedup(Sort(s)) == s
  {
  }

  lemma TidyKeeps(s: seq<Name>)
    ensures StrictlySorted(Dedup(Sort(s))) && forall n :: n in Dedup(Sort(s)) <==> n in s
  {
    SortSorted(s);
    DedupKeeps(Sort(s));
    forall n ensures n in Sort(s) <==> n in s {
      assert n in Sort(s) <==> n in multiset(Sort(s));
    }
  }
}
