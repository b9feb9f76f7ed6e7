/** The single-slot hand-off between the web page and the login flow: the
    code and password responses are put on one FIFO queue, the login
    callbacks take from its front, and a new login drains what is left. */
module AuthQueue {
  import opened Python

  /** `code_response` / `password_response`: only a truthy value is queued. */
  function Put(q: seq<string>, v: Option<string>): seq<string> {
    if TruthyStr(v) then q + [v.value] else q
  }

  /** A run of responses, one `Put` after another. */
  function PutAll(q: seq<string>, vs: seq<Option<string>>): seq<string>
    decreases |vs|
  {
    if vs == [] then q else PutAll(Put(q, vs[0]), vs[1..])
  }

  /** The responses that reach the queue: the truthy ones, in order. */
  function Delivered(vs: seq<Option<string>>): (r: seq<string>)
    ensures |r| <= |vs|
  {
    if vs == [] then []
    else (if TruthyStr(vs[0]) then [vs[0].value] else []) + Delivered(vs[1..])
  }

  /** Exactly the truthy responses are delivered: every queued value is a
      non-empty string that some response carried, and every truthy
      response's value is queued. */
  lemma {:induction false} DeliveredMembers(vs: seq<Option<string>>)
    ensures forall x :: x in Delivered(vs) <==> exists i :: 0 <= i < |vs| && TruthyStr(vs[i]) && vs[i].value == x
    ensures forall k :: 0 <= k < |Delivered(vs)| ==> Delivered(vs)[k] != ""
    decreases |vs|
  {
    if vs != [] {
      DeliveredMembers(vs[1..]);
      var head := if TruthyStr(vs[0]) then [vs[0].value] else [];
      assert Delivered(vs) == head + Delivered(vs[1..]);
      forall x
        ensures x in Delivered(vs) <==> exists i :: 0 <= i < |vs| && TruthyStr(vs[i]) && vs[i].value == x
      {
        if x in Delivered(vs[1..]) {
          var j :| 0 <= j < |vs[1..]| && TruthyStr(vs[1..][j]) && vs[1..][j].value == x;
          assert vs[j + 1] == vs[1..][j];
        }
        if exists i :: 0 <= i < |vs| && TruthyStr(vs[i]) && vs[i].value == x {
          var i :| 0 <= i < |vs| && TruthyStr(vs[i]) && vs[i].value == x;
          if i > 0 {
            assert vs[1..][i - 1] == vs[i];
          }
        }
      }
    }
  }

  /** A blocking `get` with a time limit: the front item, or `None` when the
      queue stays empty (the wait runs out). */
  datatype Taken = Taken(value: Option<string>, rest: seq<string>)

  function Get(q: seq<string>): (t: Taken)
    ensures t.value.Some? <==> q != []
    ensures q != [] ==> q == [t.value.value] + t.rest
    ensures q == [] ==> t.rest == []
  {
    if q == [] then Taken(None, []) else Taken(Some(q[0]), q[1..])
  }

  /** `k` successive gets. */
  function GetN(q: seq<string>, k: nat): (r: seq<Option<string>>)
    ensures |r| == k
  {
    if k == 0 then [] else var t := Get(q); [t.value] + GetN(t.rest, k - 1)
  }

  /** Nothing but truthy responses is ever queued, and none is lost. */
  lemma {:induction false} PutAllAppends(q: seq<string>, vs: seq<Option<string>>)
    ensures PutAll(q, vs) == q + Delivered(vs)
    decreases |vs|
  {
    if vs != [] {
      PutAllAppends(Put(q, vs[0]), vs[1..]);
    }
  }

  /** Gets return the queued items front first. */
  lemma {:induction false} GetNReturnsQueue(q: seq<string>)
    ensures GetN(q, |q|) == seq(|q|, i requires 0 <= i < |q| => Some(q[i]))
    decreases |q|
  {
    if q != [] {
      GetNReturnsQueue(q[1..]);
    }
  }

  /** FIFO hand-off: starting from a drained queue, the login callbacks
      receive exactly the truthy responses, in the order they were sent. */
  lemma FifoHandOff(vs: seq<Option<string>>)
    ensures var d := Delivered(vs);
      var got := GetN(PutAll([], vs), |d|);
      |got| == |d| && forall i :: 0 <= i < |d| ==> got[i] == Some(d[i])
  {
    PutAllAppends([], vs);
    assert [] + Delivered(vs) == Delivered(vs);
    GetNReturnsQueue(Delivered(vs));
  }

  /** The queue object the server holds. */
  class Queue {
    var items: seq<string>

    constructor ()
      ensures items == []
    {
      items := [];
    }

    /** `auth_queue.put(value)` behind the truthiness check. */
    method PutResponse(v: Option<string>)
      modifies this
      ensures items == Put(old(items), v)
    {
      if TruthyStr(v) {
        items := items + [v.value];
      }
    }

    /** `get_nowait()`; `None` stands for `queue.Empty`. */
    method GetNowait() returns (v: Option<string>)
      modifies this
      ensures Taken(v, items) == Get(old(items))
    {
      if items == [] {
        v := None;
      } else {
        v := Some(items[0]);
        items := items[1..];
      }
    }

    /** The drain at the start of a login: `while not empty(): get_nowait()`. */
    method Drain()
      modifies this
      ensures items == []
    {
      while items != []
        decreases |items|
      {
        var _ := GetNowait();
      }
    }
  }
}
