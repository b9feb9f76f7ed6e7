/** Saved login sessions: one `<name>.session` file per session in the
    working directory, listed with `glob("*.session")` and named by removing
    the `.session` text from the file name. */
module Sessions {
  import opened Python

  const Suffix: string := ".session"

  /** The file that backs session `name`. */
  function SessionFile(name: string): string {
    name + Suffix
  }

  /** `glob("*.session")` keeps names that end in `.session` and do not start
      with a dot (glob's `*` skips hidden files). */
  predicate MatchesGlob(f: string) {
    EndsWith(f, Suffix) && f[0] != '.'
  }

  function Glob(listing: seq<string>): (files: seq<string>)
    ensures forall f :: f in files <==> f in listing && MatchesGlob(f)
  {
    if listing == [] then []
    else (if MatchesGlob(listing[0]) then [listing[0]] else []) + Glob(listing[1..])
  }

  /** `f.replace(".session", "")`: every occurrence goes, not only the last. */
  function SessionName(f: string): string {
    RemoveAll(f, Suffix)
  }

  /** `get_available_sessions`: the session names of the globbed files, in
      glob order. */
  function AvailableSessions(listing: seq<string>): (names: seq<string>)
    ensures |names| == |Glob(listing)|
    ensures forall k :: 0 <= k < |names| ==> names[k] == SessionName(Glob(listing)[k])
  {
    var files := Glob(listing);
    seq(|files|, k requires 0 <= k < |files| => SessionName(files[k]))
  }

  /** A session name that round-trips through its file name. */
  predicate PlainName(name: string) {
    name != [] && name[0] != '.' && !Contains(name, Suffix)
  }

  /** A non-empty name without `.session` in it does not start the text
      `name + ".session"` with `.session`. */
  lemma SuffixNotAtHead(x: string)
    requires x != [] && !Contains(x, Suffix)
    ensures (x + Suffix)[..|Suffix|] != Suffix
  {
    var s := x + Suffix;
    if |x| >= |Suffix| {
      assert !OccursAt(x, Suffix, 0);
      assert s[..|Suffix|] == x[..|Suffix|];
    } else {
      assert s[|x|] == '.';
      assert Suffix[|x|] != '.';
    }
  }

  lemma {:induction false} RemoveAllBeforeSuffix(x: string)
    requires !Contains(x, Suffix)
    ensures RemoveAll(x + Suffix, Suffix) == x
    decreases |x|
  {
    var s := x + Suffix;
    if x == [] {
      assert s[..|Suffix|] == Suffix && s[|Suffix|..] == [];
    } else {
      SuffixNotAtHead(x);
      NotContainsTail(x, Suffix);
      RemoveAllBeforeSuffix(x[1..]);
      assert s[1..] == x[1..] + Suffix;
    }
  }

  /** Naming round trip: the file of a plain session name is listed by the
      glob and maps back to exactly that name. */
  lemma SessionFileRoundTrip(name: string)
    requires PlainName(name)
    ensures MatchesGlob(SessionFile(name))
    ensures SessionName(SessionFile(name)) == name
  {
    RemoveAllBeforeSuffix(name);
    assert SessionFile(name)[0] == name[0];
  }

  /** Every plain session whose file is in the directory listing is offered
      by `get_available_sessions`. */
  lemma ListedSessionIsAvailable(listing: seq<string>, name: string)
    requires PlainName(name) && SessionFile(name) in listing
    ensures name in AvailableSessions(listing)
  {
    SessionFileRoundTrip(name);
    var files := Glob(listing);
    var k :| 0 <= k < |files| && files[k] == SessionFile(name);
    assert AvailableSessions(listing)[k] == name;
  }

  /** A name is offered exactly when some listed file matches the glob and
      `replace` turns that file's name into it. */
  lemma AvailableSessionsMembership(listing: seq<string>, n: string)
    ensures n in AvailableSessions(listing) <==> exists f :: f in listing && MatchesGlob(f) && SessionName(f) == n
  {
    var files := Glob(listing);
    var names := AvailableSessions(listing);
    if n in names {
      var k :| 0 <= k < |names| && names[k] == n;
      assert files[k] in files;
    }
    if exists f :: f in listing && MatchesGlob(f) && SessionName(f) == n {
      var f :| f in listing && MatchesGlob(f) && SessionName(f) == n;
      var k :| 0 <= k < |files| && files[k] == f;
      assert names[k] == n;
    }
  }

  /** `replace` drops both occurrences in `a.sessionb.session`. */
  lemma MergedSessionName()
    ensures SessionName("a.sessionb.session") == "ab"
  {
    var f := "a.sessionb.session";
    assert f[..|Suffix|][0] == 'a' != Suffix[0];
    assert f[1..][..|Suffix|] == Suffix;
    assert f[1..][|Suffix|..] == "b.session";
    assert "b.session"[..|Suffix|][0] == 'b' != Suffix[0];
    assert "b.session"[1..] == Suffix;
    assert Suffix[|Suffix|..] == [];
  }

  /** Because `replace` drops every `.session`, a file can be offered under a
      plain name whose own file is not on disk: `a.sessionb.session` is
      offered as `ab`. */
  lemma OfferedWithoutOwnFile()
    ensures var listing := ["a.sessionb.session"];
      PlainName("ab") && "ab" in AvailableSessions(listing) && SessionFile("ab") !in listing
  {
    var f := "a.sessionb.session";
    MergedSessionName();
    assert MatchesGlob(f);
    AvailableSessionsMembership([f], "ab");
    assert !OccursAt("ab", Suffix, 0);
  }

  /** app.py's `get_available_sessions`: a `for` loop appending to a list. */
  method CollectSessions(listing: seq<string>) returns (sessions: seq<string>)
    ensures sessions == AvailableSessions(listing)
  {
    var files := Glob(listing);
    sessions := [];
    for i := 0 to |files|
      invariant |sessions| == i
      invariant forall k :: 0 <= k < i ==> sessions[k] == SessionName(files[k])
    {
      sessions := sessions + [SessionName(files[i])];
    }
  }
}
