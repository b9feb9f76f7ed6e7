/** The in-memory log buffer that every variant keeps for the web page:
    entries are appended and the list is cut back to its newest `MAX_LOGS`
    entries; the page and the auto-clear task may empty it. */
module Logs {
  import opened Python

  /** Python's `s[-n:]` for `n >= 0`: `s[-0:]` is the whole list. */
  function TailSlice<T>(s: seq<T>, n: nat): seq<T> {
    if n == 0 || |s| <= n then s else s[|s| - n..]
  }

  /** Cutting back keeps a suffix: the newest entries, oldest first. */
  lemma TailSliceIsSuffix<T>(s: seq<T>, n: nat)
    requires n > 0
    ensures var r := TailSlice(s, n);
      |r| == (if |s| <= n then |s| else n) && r == s[|s| - |r|..]
  {
  }

  /** Appending one entry and cutting back equals cutting back the whole
      history: the kept window never depends on when the cut happened. */
  lemma TailSliceAppend<T>(s: seq<T>, e: T, n: nat)
    requires n > 0
    ensures TailSlice(TailSlice(s, n) + [e], n) == TailSlice(s + [e], n)
  {
    var t := TailSlice(s, n);
    if |s| > n {
      assert (t + [e])[|t + [e]| - n..] == (s + [e])[|s + [e]| - n..];
    }
  }

  /** The buffer after `entries` were appended, one at a time, each followed
      by the cut-back. */
  function AppendAll<T>(s: seq<T>, entries: seq<T>, n: nat): seq<T>
    decreases |entries|
  {
    if entries == [] then s
    else AppendAll(TailSlice(s + [entries[0]], n), entries[1..], n)
  }

  /** After any run of appends the buffer holds exactly the newest `n`
      entries of the whole history, in the order they were logged. */
  lemma {:induction false} AppendAllWindow<T>(s: seq<T>, entries: seq<T>, n: nat)
    requires n > 0 && |s| <= n
    ensures AppendAll(s, entries, n) == TailSlice(s + entries, n)
    decreases |entries|
  {
    if entries == [] {
      assert s + entries == s;
    } else {
      var s' := TailSlice(s + [entries[0]], n);
      assert |s'| <= n;
      calc {
        AppendAll(s, entries, n);
        AppendAll(s', entries[1..], n);
        { AppendAllWindow(s', entries[1..], n); }
        TailSlice(s' + entries[1..], n);
        { WindowOfWindow(s + [entries[0]], entries[1..], n); }
        TailSlice((s + [entries[0]]) + entries[1..], n);
        { assert (s + [entries[0]]) + entries[1..] == s + entries; }
        TailSlice(s + entries, n);
      }
    }
  }

  /** Cutting back early loses nothing that a later cut-back would keep. */
  lemma {:induction false} WindowOfWindow<T>(s: seq<T>, rest: seq<T>, n: nat)
    requires n > 0
    ensures TailSlice(TailSlice(s, n) + rest, n) == TailSlice(s + rest, n)
  {
    var t := TailSlice(s, n);
    if |s| > n {
      var u := t + rest;
      var v := s + rest;
      assert |u| >= n;
      var d := |v| - |u|;
      assert forall k :: |u| - n <= k < |u| ==> u[k] == v[k + d];
      assert u[|u| - n..] == v[|v| - n..];
    }
  }

  /** The bound and the newest entry after one more append. */
  lemma AppendKeepsNewest<T>(s: seq<T>, e: T, n: nat)
    requires n > 0 && |s| <= n
    ensures var r := TailSlice(s + [e], n);
      |r| == (if |s| < n then |s| + 1 else n) && r[|r| - 1] == e
  {
  }

  class LogBuffer {
    var entries: seq<string>
    const maxLogs: nat

    ghost predicate Valid()
      reads this
    {
      maxLogs > 0 && |entries| <= maxLogs
    }

    constructor (maxLogs: nat)
      requires maxLogs > 0
      ensures Valid() && this.maxLogs == maxLogs && entries == []
    {
      this.maxLogs := maxLogs;
      entries := [];
    }

    /** app.py's `SocketIOHandler.emit`: append, then cut back only when
        the list has grown too long. The templates' `log_to_clients` has the
        same two lines but, as written, never reaches them. */
    method Emit(entry: string)
      requires Valid()
      modifies this
      ensures Valid()
      ensures entries == TailSlice(old(entries) + [entry], maxLogs)
    {
      entries := entries + [entry];
      if |entries| > maxLogs {
        entries := entries[|entries| - maxLogs..];
      }
    }

    /** main.py's `log_and_store`: the cut-back is unconditional. */
    method LogAndStore(entry: string)
      requires Valid()
      modifies this
      ensures Valid()
      ensures entries == TailSlice(old(entries) + [entry], maxLogs)
    {
      entries := entries + [entry];
      entries := entries[|entries| - if |entries| < maxLogs then |entries| else maxLogs..];
    }

    /** `logs = []`; answers how many entries were dropped. */
    method Clear() returns (dropped: nat)
      requires Valid()
      modifies this
      ensures Valid() && entries == [] && dropped == |old(entries)|
    {
      dropped := |entries|;
      entries := [];
    }

    /** app.py's manual and automatic clears: the buffer is emptied, then the
        logger line that announces the clear goes through the handler. */
    method ClearAndAnnounce(announcement: string) returns (dropped: nat)
      requires Valid()
      modifies this
      ensures Valid() && entries == [announcement] && dropped == |old(entries)|
    {
      dropped := Clear();
      Emit(announcement);
    }

    /** main.py's auto-clear tick: clears only when enabled and non-empty and
        answers whether the clear (and its `logs_cleared` emit) happened. */
    method AutoClearIfNonEmpty(enabled: bool) returns (cleared: bool)
      requires Valid()
      modifies this
      ensures Valid()
      ensures cleared <==> enabled && old(entries) != []
      ensures entries == if cleared then [] else old(entries)
    {
      cleared := enabled && entries != [];
      if cleared {
        var _ := Clear();
      }
    }

    /** The templates' auto-clear tick: clears whenever enabled, reporting the
        old count even when it is zero. */
    method AutoClearIfEnabled(enabled: bool) returns (cleared: Option<nat>)
      requires Valid()
      modifies this
      ensures Valid()
      ensures enabled ==> cleared == Some(|old(entries)|) && entries == []
      ensures !enabled ==> cleared == None && entries == old(entries)
    {
      if enabled {
        var n := Clear();
        cleared := Some(n);
      } else {
        cleared := None;
      }
    }
  }
}
