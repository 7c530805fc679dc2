/** setenv, unsetenv and getenv as the coroutines call them. */
module EnvHooks {
  import opened EnvNames
  import opened EnvCalls
  import opened EnvTable
  import opened Wrappers

  /** The usable ones of `names`, none with a value. */
  ghost predicate Unset(t: Table, names: seq<Option<Name>>) {
    && (forall n :: n in t <==> n != [] && Some(n) in names)
    && (forall n :: n in t ==> t[n] == None)
  }

  /** The part of stCoRoutine_t that the hooks use. */
  class CoRoutine {
    var cEnableSysHook: bool
    var pvEnv: SysEnvArr?

    constructor (cEnableSysHook: bool)
      ensures this.cEnableSysHook == cEnableSysHook && pvEnv == null
    {
      this.cEnableSysHook, pvEnv := cEnableSysHook, null;
    }
  }

  /** The hooks of one process: the list of all, and the coroutines. */
  class Hooks {
    const g_co_sysenv: SysEnvArr
    ghost var cos: set<CoRoutine>

    constructor ()
      ensures Valid() && cos == {} && fresh(g_co_sysenv) && g_co_sysenv.data == null
    {
      g_co_sysenv := new SysEnvArr();
      cos := {};
    }

    /** Every coroutine's copy is its own. */
    ghost predicate Valid()
      reads this, g_co_sysenv, g_co_sysenv.data, cos, Arrays(), Datas()
    {
      && g_co_sysenv.Valid()
      && (forall c :: c in cos && c.pvEnv != null ==>
            && c.pvEnv.Valid() && c.pvEnv != g_co_sysenv
            && (c.pvEnv.data != null ==> c.pvEnv.data != g_co_sysenv.data))
      && (forall c, d :: c in cos && d in cos && c != d && c.pvEnv != null && d.pvEnv != null ==>
            c.pvEnv != d.pvEnv && (c.pvEnv.data != null ==> c.pvEnv.data != d.pvEnv.data))
    }

    ghost function Arrays(): set<object>
      reads this, cos
    {
      set c | c in cos && c.pvEnv != null :: c.pvEnv
    }

    ghost function Datas(): set<object>
      reads this, cos, Arrays()
    {
      set c | c in cos && c.pvEnv != null && c.pvEnv.data != null :: c.pvEnv.data
    }

    /** The values that `co` sees; one that has no copy yet sees the list of all. */
    ghost function TableFor(co: CoRoutine): Table
      reads co, co.pvEnv, if co.pvEnv == null then {} else {co.pvEnv.data}, g_co_sysenv, g_co_sysenv.data
    {
      var arr := if co.pvEnv == null then g_co_sysenv else co.pvEnv;
      if arr.Shape() then TableOf(arr.Entries()) else map[]
    }

    /** co_set_env_list: the first call decides which names every coroutine that makes
        its copy later on has for its own, all unset; no other call changes anything. */
    method SetEnvList(names: seq<Option<Name>>)
      requires Valid()
      modifies g_co_sysenv, if g_co_sysenv.data == null then {} else {g_co_sysenv.data}
      ensures Valid() && g_co_sysenv.data != null
      ensures forall c :: c in cos && (old(g_co_sysenv.data) != null || c.pvEnv != null) ==>
              TableFor(c) == old(TableFor(c))
      ensures old(g_co_sysenv.data) == null ==> forall c :: c in cos && c.pvEnv == null ==> Unset(TableFor(c), names)
    {
      hide TableOf;
      g_co_sysenv.CoSetEnvList(names);
      TableHolds(g_co_sysenv.Entries());
    }

    /** The copy that the first use makes. */
    method Private(self: CoRoutine)
      requires Valid() && self in cos
      modifies self`pvEnv
      ensures Valid() && self.pvEnv != null && (old(self.pvEnv) != null ==> self.pvEnv == old(self.pvEnv))
      ensures old(self.pvEnv) == null ==> fresh(self.pvEnv) && (self.pvEnv.data != null ==> fresh(self.pvEnv.data))
      ensures TableFor(self) == old(TableFor(self))
    {
      if self.pvEnv == null {
        self.pvEnv := g_co_sysenv.DupCoSysenvArr();
      }
    }

    lemma SeesOwn(self: CoRoutine)
      requires Valid() && self in cos && self.pvEnv != null
      ensures self.pvEnv.Valid() && TableFor(self) == TableOf(self.pvEnv.Entries())
    {
    }

    /** The entry of `n` in the coroutine's own copy, which is made if need be; or -1. */
    method Find(self: CoRoutine, n: Name) returns (e: int)
      requires Valid() && self in cos
      modifies self`pvEnv
      ensures Valid() && self.pvEnv != null && (old(self.pvEnv) != null ==> self.pvEnv == old(self.pvEnv))
      ensures old(self.pvEnv) == null ==> fresh(self.pvEnv) && (self.pvEnv.data != null ==> fresh(self.pvEnv.data))
      ensures TableFor(self) == old(TableFor(self))
      ensures if n in TableFor(self)
              then 0 <= e < self.pvEnv.cnt && self.pvEnv.data != null && e < self.pvEnv.data.Length
                && self.pvEnv.data[e] == SysEnv(n, TableFor(self)[n])
              else e == -1
      ensures forall c :: c in cos && c != self ==> TableFor(c) == old(TableFor(c))
    {
      hide TableOf, TableFor;
      Private(self);
      SeesOwn(self);
      e := self.pvEnv.Bsearch(n);
      TableHolds(self.pvEnv.Entries());
    }

    method Store(self: CoRoutine, e: nat, v: Option<Value>)
      requires Valid() && self in cos && self.pvEnv != null && e < self.pvEnv.cnt
      modifies self.pvEnv.data
      ensures Valid() && TableFor(self) == old(TableFor(self))[old(self.pvEnv.data[e].name) := v]
      ensures forall c :: c in cos && c != self ==> TableFor(c) == old(TableFor(c))
    {
      hide TableOf;
      self.pvEnv.Assign(e, v);
    }

    /** setenv. */
    method SetEnv(self: CoRoutine, n: Name, value: Option<Value>, overwrite: bool) returns (r: Answer)
      requires Valid() && self in cos
      modifies self`pvEnv, if self.pvEnv == null then {} else {self.pvEnv.data}
      ensures Valid()
      ensures self.pvEnv != old(self.pvEnv) ==>
                old(self.pvEnv) == null && fresh(self.pvEnv) && (self.pvEnv.data != null ==> fresh(self.pvEnv.data))
      ensures r == if self.cEnableSysHook && n in old(TableFor(self)) then Done else System
      ensures var t := old(TableFor(self));
              TableFor(self) ==
                if self.cEnableSysHook && n in t && (overwrite || t[n] == None) then t[n := value] else t
      ensures forall c :: c in cos && c != self ==> TableFor(c) == old(TableFor(c))
    {
      hide TableOf, Valid, TableFor;
      if self.cEnableSysHook {
        var e := Find(self, n);
        if e >= 0 {
          if overwrite || self.pvEnv.data[e].value == None {
            Store(self, e, value);
          }
          return Done;
        }
      }
      r := System;
    }

    /** unsetenv. */
    method UnsetEnv(self: CoRoutine, n: Name) returns (r: Answer)
      requires Valid() && self in cos
      modifies self`pvEnv, if self.pvEnv == null then {} else {self.pvEnv.data}
      ensures Valid()
      ensures self.pvEnv != old(self.pvEnv) ==>
                old(self.pvEnv) == null && fresh(self.pvEnv) && (self.pvEnv.data != null ==> fresh(self.pvEnv.data))
      ensures r == if self.cEnableSysHook && n in old(TableFor(self)) then Done else System
      ensures var t := old(TableFor(self));
              TableFor(self) == if self.cEnableSysHook && n in t then t[n := None] else t
      ensures forall c :: c in cos && c != self ==> TableFor(c) == old(TableFor(c))
    {
      hide TableOf, Valid, TableFor;
      if self.cEnableSysHook {
        var e := Find(self, n);
        if e >= 0 {
          if self.pvEnv.data[e].value != None {
            Store(self, e, None);
          }
          return Done;
        }
      }
      r := System;
    }

    /** getenv. */
    method GetEnv(self: CoRoutine, n: Name) returns (r: Answer)
      requires Valid() && self in cos
      modifies self`pvEnv
      ensures Valid()
      ensures self.pvEnv != old(self.pvEnv) ==>
                old(self.pvEnv) == null && fresh(self.pvEnv) && (self.pvEnv.data != null ==> fresh(self.pvEnv.data))
      ensures var t := old(TableFor(self)); r == if self.cEnableSysHook && n in t then Got(t[n]) else System
      ensures forall c :: c in cos ==> TableFor(c) == old(TableFor(c))
    {
      hide TableOf, Valid, TableFor;
      if self.cEnableSysHook {
        var e := Find(self, n);
        if e >= 0 {
          return Got(self.pvEnv.data[e].value);
        }
      }
      r := System;
    }

    /** One of the three calls. */
    method Make(self: CoRoutine, call: Call) returns (r: Answer)
      requires Valid() && self in cos
      modifies self`pvEnv, if self.pvEnv == null then {} else {self.pvEnv.data}
      ensures Valid()
      ensures self.pvEnv != old(self.pvEnv) ==>
                old(self.pvEnv) == null && fresh(self.pvEnv) && (self.pvEnv.data != null ==> fresh(self.pvEnv.data))
      ensures var t := old(TableFor(self));
              if self.cEnableSysHook then r == Reply(t, call) && TableFor(self) == After(t, call)
                else r == System && TableFor(self) == t
      ensures forall c :: c in cos && c != self ==> TableFor(c) == old(TableFor(c))
    {
      hide TableOf, Valid, TableFor;
      match call
      case Set(n, v, overwrite) => r := SetEnv(self, n, v, overwrite);
      case Remove(n) => r := UnsetEnv(self, n);
      case Get(n) => r := GetEnv(self, n);
    }

    /** Any interleaving of calls by any coroutines.  To each of them it is as if the
        others did not exist: its table and the answers it gets are those of its own
        calls, made alone on what it started with. */
    method Run(ops: seq<(CoRoutine, Call)>) returns (replies: seq<Answer>)
      requires Valid() && forall k :: 0 <= k < |ops| ==> ops[k].0 in cos
      modifies cos`pvEnv, Datas()
      ensures Valid() && |replies| == |ops|
      ensures forall c :: c in cos && c.cEnableSysHook ==>
                && TableFor(c) == Alone(old(TableFor(c)), Mine(ops, c))
                && RepliesTo(ops, replies, c) == RepliesAlone(old(TableFor(c)), Mine(ops, c))
      ensures forall c :: c in cos && !c.cEnableSysHook ==>
                TableFor(c) == old(TableFor(c)) && forall r :: r in RepliesTo(ops, replies, c) ==> r == System
      ensures forall k :: 0 <= k < |ops| ==>
                var c := ops[k].0;
                var t := old(TableFor(c));
                var call := ops[k].1;
                replies[k] ==
                  if !c.cEnableSysHook || call.n !in t then System
                  else if call.Get? then Got(Latest(t[call.n], Mine(ops[..k], c), call.n))
                  else Done
    {
      hide TableOf, TableFor, Valid, Alone, Mine, RepliesTo, Reply;
      replies := [];
      NoneYet(ops);
      for i := 0 to |ops|
        invariant Valid() && |replies| == i
        invariant forall c :: c in cos && c.pvEnv != null && c.pvEnv.data != null ==>
                  c.pvEnv.data in old(Datas()) || fresh(c.pvEnv.data)
        invariant forall c :: c in cos && c.cEnableSysHook ==>
                    && TableFor(c) == Alone(old(TableFor(c)), Mine(ops[..i], c))
                    && RepliesTo(ops[..i], replies, c) == RepliesAlone(old(TableFor(c)), Mine(ops[..i], c))
        invariant forall c :: c in cos && !c.cEnableSysHook ==>
                    TableFor(c) == old(TableFor(c)) && forall r :: r in RepliesTo(ops[..i], replies, c) ==> r == System
      {
        var (self, call) := ops[i];
        var r := Make(self, call);
        forall c | c in cos
          ensures c == self ==>
                    && Mine(ops[..i + 1], c) == Mine(ops[..i], c) + [call]
                    && RepliesTo(ops[..i + 1], replies + [r], c) == RepliesTo(ops[..i], replies, c) + [r]
          ensures c != self ==>
                    && Mine(ops[..i + 1], c) == Mine(ops[..i], c)
                    && RepliesTo(ops[..i + 1], replies + [r], c) == RepliesTo(ops[..i], replies, c)
        {
          OneMore(ops, i, replies, r, c);
        }
        AloneLast(old(TableFor(self)), Mine(ops[..i], self), call);
        RepliesLast(old(TableFor(self)), Mine(ops[..i], self), call);
        replies := replies + [r];
      }
      assert ops[..|ops|] == ops;
      forall k | 0 <= k < |ops|
        ensures var c := ops[k].0;
                var t := old(TableFor(c));
                var call := ops[k].1;
                replies[k] ==
                  if !c.cEnableSysHook || call.n !in t then System
                  else if call.Get? then Got(Latest(t[call.n], Mine(ops[..k], c), call.n))
                  else Done
      {
        Answered(ops, replies, ops[k].0, k, ops[k].0.cEnableSysHook, old(TableFor(ops[k].0)));
      }
    }

    /** What getenv returns after any interleaving: the latest value that the coroutine
        itself gave to a registered name, and the system's for any other. */
    method GetAfter(ops: seq<(CoRoutine, Call)>, self: CoRoutine, n: Name) returns (r: Answer)
      requires Valid() && self in cos && forall k :: 0 <= k < |ops| ==> ops[k].0 in cos
      modifies cos`pvEnv, Datas()
      ensures Valid()
      ensures var t := old(TableFor(self));
              r == if self.cEnableSysHook && n in t then Got(Latest(t[n], Mine(ops, self), n)) else System
    {
      hide TableOf, TableFor, Valid, Alone, RepliesAlone, Mine, RepliesTo, Latest;
      var replies := Run(ops);
      TableIsLatest(old(TableFor(self)), Mine(ops, self));
      assert n in Alone(old(TableFor(self)), Mine(ops, self)) <==> n in old(TableFor(self));
      r := GetEnv(self, n);
    }
  }

  /** The calls that `co` makes. */
  function Mine<C(==)>(ops: seq<(C, Call)>, co: C): seq<Call> {
    if ops == [] then []
    else Mine(ops[..|ops| - 1], co) + if ops[|ops| - 1].0 == co then [ops[|ops| - 1].1] else []
  }

  /** The replies that `co` gets. */
  function RepliesTo<C(==)>(ops: seq<(C, Call)>, replies: seq<Answer>, co: C): seq<Answer>
    requires |replies| == |ops|
  {
    if ops == [] then []
    else
      RepliesTo(ops[..|ops| - 1], replies[..|ops| - 1], co)
      + if ops[|ops| - 1].0 == co then [replies[|ops| - 1]] else []
  }

  lemma NoneYet<C>(ops: seq<(C, Call)>)
    ensures forall c :: Mine(ops[..0], c) == [] && RepliesTo(ops[..0], [], c) == []
    ensures forall t :: Alone(t, []) == t && RepliesAlone(t, []) == []
  {
  }

  lemma OneMore<C>(ops: seq<(C, Call)>, i: nat, replies: seq<Answer>, r: Answer, co: C)
    requires i < |ops| && |replies| == i
    ensures ops[i].0 == co ==>
              && Mine(ops[..i + 1], co) == Mine(ops[..i], co) + [ops[i].1]
              && RepliesTo(ops[..i + 1], replies + [r], co) == RepliesTo(ops[..i], replies, co) + [r]
    ensures ops[i].0 != co ==>
              && Mine(ops[..i + 1], co) == Mine(ops[..i], co)
              && RepliesTo(ops[..i + 1], replies + [r], co) == RepliesTo(ops[..i], replies, co)
  {
    assert ops[..i + 1][..i] == ops[..i];
    assert (replies + [r])[..i] == replies;
    assert Mine(ops[..i], co) + [] == Mine(ops[..i], co);
    assert RepliesTo(ops[..i], replies, co) + [] == RepliesTo(ops[..i], replies, co);
  }

  /** Call `k` is the one after `co`'s calls before it, and so is its reply. */
  lemma {:induction false} ReplyAt<C>(ops: seq<(C, Call)>, replies: seq<Answer>, co: C, k: nat)
    requires |replies| == |ops| && k < |ops| && ops[k].0 == co
    ensures var j := |Mine(ops[..k], co)|;
            && j < |Mine(ops, co)| == |RepliesTo(ops, replies, co)|
            && Mine(ops, co)[..j] == Mine(ops[..k], co) && Mine(ops, co)[j] == ops[k].1
            && RepliesTo(ops, replies, co)[j] == replies[k]
    decreases |ops|
  {
    var n := |ops| - 1;
    SameNumber(ops[..n], replies[..n], co);
    if k < n {
      ReplyAt(ops[..n], replies[..n], co, k);
      assert ops[..n][..k] == ops[..k];
    }
  }

  lemma {:induction false} SameNumber<C>(ops: seq<(C, Call)>, replies: seq<Answer>, co: C)
    requires |replies| == |ops|
    ensures |Mine(ops, co)| == |RepliesTo(ops, replies, co)|
    decreases |ops|
  {
    if ops != [] {
      SameNumber(ops[..|ops| - 1], replies[..|ops| - 1], co);
    }
  }

  lemma Answered<C>(ops: seq<(C, Call)>, replies: seq<Answer>, co: C, k: nat, hooked: bool, t: Table)
    requires |replies| == |ops| && k < |ops| && ops[k].0 == co
    requires if hooked then RepliesTo(ops, replies, co) == RepliesAlone(t, Mine(ops, co))
             else forall r :: r in RepliesTo(ops, replies, co) ==> r == System
    ensures var call := ops[k].1;
            replies[k] ==
              if !hooked || call.n !in t then System
              else if call.Get? then Got(Latest(t[call.n], Mine(ops[..k], co), call.n))
              else Done
  {
    hide Mine, RepliesTo, RepliesAlone, Alone, Latest;
    var j := |Mine(ops[..k], co)|;
    ReplyAt(ops, replies, co, k);
    assert replies[k] in RepliesTo(ops, replies, co);
    if hooked {
      RepliesAloneAt(t, Mine(ops, co), j);
      TableIsLatest(t, Mine(ops[..k], co));
      assert ops[k].1.n in Alone(t, Mine(ops[..k], co)).Keys <==> ops[k].1.n in t.Keys;
    }
  }
}
