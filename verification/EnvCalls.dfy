/** The calls of setenv, unsetenv and getenv on a table that belongs to one coroutine. */
module EnvCalls {
  import opened EnvNames
  import opened EnvTable
  import opened Wrappers

  /** What a hook returns: its own answer, or that of the system's function. */
  datatype Answer = Done | Got(value: Option<Value>) | System

  type Table = map<Name, Option<Value>>

  function SetIn(t: Table, n: Name, v: Option<Value>, overwrite: bool): Table {
    if n in t && (overwrite || t[n] == None) then t[n := v] else t
  }

  function UnsetIn(t: Table, n: Name): Table {
    if n in t then t[n := None] else t
  }

  /** One call of a hook. */
  datatype Call = Set(n: Name, v: Option<Value>, overwrite: bool) | Remove(n: Name) | Get(n: Name)

  /** What a call does to the table of the coroutine that makes it, and what it
      returns. */
  function After(t: Table, c: Call): Table {
    match c
    case Set(n, v, overwrite) => SetIn(t, n, v, overwrite)
    case Remove(n) => UnsetIn(t, n)
    case Get(n) => t
  }

  function Reply(t: Table, c: Call): Answer {
    if c.n !in t then System else if c.Get? then Got(t[c.n]) else Done
  }

  /** `calls` on a table that nobody else uses. */
  function Alone(t: Table, calls: seq<Call>): Table
    decreases |calls|
  {
    if calls == [] then t else Alone(After(t, calls[0]), calls[1..])
  }

  function RepliesAlone(t: Table, calls: seq<Call>): seq<Answer>
    decreases |calls|
  {
    if calls == [] then [] else [Reply(t, calls[0])] + RepliesAlone(After(t, calls[0]), calls[1..])
  }

  /** The value of one variable that starts as `v`: the last call that overwrites it,
      unsets it or finds it unset. */
  function Latest(v: Option<Value>, calls: seq<Call>, n: Name): Option<Value> {
    if calls == [] then v
    else
      var c := calls[|calls| - 1];
      if c.n != n || c.Get? then Latest(v, calls[..|calls| - 1], n)
      else if c.Remove? then None
      else if c.overwrite || Latest(v, calls[..|calls| - 1], n) == None then c.v
      else Latest(v, calls[..|calls| - 1], n)
  }

  lemma {:induction false} AloneLast(t: Table, calls: seq<Call>, c: Call)
    ensures Alone(t, calls + [c]) == After(Alone(t, calls), c)
    decreases |calls|
  {
    if calls == [] {
      assert (calls + [c])[1..] == [];
    } else {
      assert (calls + [c])[1..] == calls[1..] + [c];
      AloneLast(After(t, calls[0]), calls[1..], c);
    }
  }

  /** The registered names never change, and each is a variable of its own. */
  lemma {:induction false} TableIsLatest(t: Table, calls: seq<Call>)
    ensures Alone(t, calls).Keys == t.Keys
    ensures forall n :: n in t ==> Alone(t, calls)[n] == Latest(t[n], calls, n)
    decreases |calls|
  {
    if calls != [] {
      var init := calls[..|calls| - 1];
      var c := calls[|calls| - 1];
      TableIsLatest(t, init);
      AloneLast(t, init, c);
      assert calls == init + [c];
    }
  }

  /** The replies to all calls but the last do not depend on it. */
  lemma {:induction false} RepliesLast(t: Table, calls: seq<Call>, c: Call)
    ensures RepliesAlone(t, calls + [c]) == RepliesAlone(t, calls) + [Reply(Alone(t, calls), c)]
    decreases |calls|
  {
    if calls == [] {
      assert (calls + [c])[1..] == [];
    } else {
      assert (calls + [c])[1..] == calls[1..] + [c];
      RepliesLast(After(t, calls[0]), calls[1..], c);
    }
  }

  lemma {:induction false} RepliesAloneAt(t: Table, calls: seq<Call>, j: nat)
    ensures |RepliesAlone(t, calls)| == |calls|
    ensures j < |calls| ==> RepliesAlone(t, calls)[j] == Reply(Alone(t, calls[..j]), calls[j])
    decreases |calls|
  {
    if calls != [] {
      RepliesAloneAt(After(t, calls[0]), calls[1..], if j == 0 then 0 else j - 1);
      if 0 < j < |calls| {
        assert calls[..j][1..] == calls[1..][..j - 1];
      }
    }
  }
}
