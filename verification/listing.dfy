/** The file listing: the server packs names into one fixed-size buffer, the client scans them out of it. */
module Listing {
  import opened Messages

  /** What a directory listing contains. */
  ghost predicate FileNames(names: seq<string>) {
    forall i | 0 <= i < |names| :: names[i] != "" && NUL !in names[i]
  }

  /** The names that the packing loop takes, in order, when `offset` characters are in use: each one that still
      fits, with its NUL and one character to spare. */
  function Admitted(names: seq<string>, offset: nat): seq<string> {
    if names == [] then []
    else if offset + |names[0]| + 1 < DATA_BUF_LEN
    then [names[0]] + Admitted(names[1..], offset + |names[0]| + 1)
    else Admitted(names[1..], offset)
  }

  function Packed(names: seq<string>): string {
    if names == [] then "" else names[0] + [NUL] + Packed(names[1..])
  }

  function Zeros(n: nat): (s: string)
    ensures |s| == n && forall i :: 0 <= i < n ==> s[i] == NUL
  {
    seq(n, _ => NUL)
  }

  lemma {:induction false} AdmittedFits(names: seq<string>, offset: nat)
    requires offset < DATA_BUF_LEN
    ensures offset + |Packed(Admitted(names, offset))| < DATA_BUF_LEN
  {
    if names != [] {
      if offset + |names[0]| + 1 < DATA_BUF_LEN {
        AdmittedFits(names[1..], offset + |names[0]| + 1);
        assert Admitted(names, offset)[1..] == Admitted(names[1..], offset + |names[0]| + 1);
      } else {
        AdmittedFits(names[1..], offset);
      }
    }
  }

  lemma {:induction false} AdmittedNames(names: seq<string>, offset: nat)
    requires FileNames(names)
    ensures FileNames(Admitted(names, offset))
  {
    if names != [] {
      AdmittedNames(names[1..], offset + |names[0]| + 1);
      AdmittedNames(names[1..], offset);
    }
  }

  /** One more name is taken exactly when it, its NUL and one more character fit behind the names taken before it. */
  lemma {:induction false} AdmittedGreedily(names: seq<string>, offset: nat, k: nat)
    requires k < |names|
    ensures Admitted(names[..k + 1], offset) == Admitted(names[..k], offset)
            + if offset + |Packed(Admitted(names[..k], offset))| + |names[k]| + 1 < 3000 then [names[k]] else []
  {
    if k == 0 {
      assert names[..0] == [] && names[..1] == [names[0]] && [names[0]][1..] == [];
    } else {
      assert names[..k + 1][1..] == names[1..][..k] && names[..k][1..] == names[1..][..k - 1];
      var next := offset + |names[0]| + 1;
      if next < DATA_BUF_LEN {
        AdmittedGreedily(names[1..], next, k - 1);
        PackedFirst(names[0], Admitted(names[1..][..k - 1], next));
      } else {
        AdmittedGreedily(names[1..], offset, k - 1);
      }
    }
  }

  lemma PackedFirst(name: string, names: seq<string>)
    ensures Packed([name] + names) == name + [NUL] + Packed(names)
  {
    assert ([name] + names)[1..] == names;
  }

  /** The list is complete exactly when everything fits with one character to spare. */
  lemma {:induction false} AdmitsAllExactly(names: seq<string>, offset: nat)
    requires offset < DATA_BUF_LEN
    ensures Admitted(names, offset) == names <==> offset + |Packed(names)| < 3000
    ensures |Admitted(names, offset)| <= |names|
  {
    if names != [] {
      var next := offset + |names[0]| + 1;
      if next < DATA_BUF_LEN {
        AdmitsAllExactly(names[1..], next);
        assert Admitted(names, offset)[1..] == Admitted(names[1..], next);
        assert names == [names[0]] + names[1..];
      } else {
        AdmitsAllExactly(names[1..], offset);
      }
    }
  }

  /** The whole buffer that the server sends. */
  function ListBuffer(names: seq<string>): (s: string)
    ensures |s| == DATA_BUF_LEN
  {
    AdmittedFits(names, 0);
    var p := Packed(Admitted(names, 0));
    p + Zeros(DATA_BUF_LEN - |p|)
  }

  // ---------- packing ----------

  /** The C library's strcpy into a buffer that has room. */
  method StrCpy(data: array<char>, offset: nat, name: string)
    requires offset + |name| < data.Length
    modifies data
    ensures forall j :: 0 <= j < data.Length ==>
              data[j] == if offset <= j < offset + |name| then name[j - offset]
                         else if j == offset + |name| then NUL else old(data[j])
  {
    var i := 0;
    while i < |name|
      invariant i <= |name|
      invariant forall j :: 0 <= j < data.Length ==>
                  data[j] == if offset <= j < offset + i then name[j - offset] else old(data[j])
    {
      data[offset + i] := name[i];
      i := i + 1;
    }
    data[offset + |name|] := NUL;
  }

  /** What the buffer holds while names are packed: `p`, and NULs behind it. */
  ghost predicate Holds(buffer: string, p: string) {
    |p| <= |buffer| == DATA_BUF_LEN
    && forall j :: 0 <= j < |buffer| ==> buffer[j] == if j < |p| then p[j] else NUL
  }

  /** Copying a name behind `p` packs it. */
  lemma HoldsMore(before: string, after: string, p: string, name: string)
    requires Holds(before, p) && |after| == |before| && |p| + |name| < |before|
    requires forall j :: 0 <= j < |after| ==>
               after[j] == if |p| <= j < |p| + |name| then name[j - |p|] else if j == |p| + |name| then NUL else before[j]
    ensures Holds(after, p + name + [NUL])
  {
    var q := p + name + [NUL];
    forall j | 0 <= j < |after| ensures after[j] == if j < |q| then q[j] else NUL {
      assert j < |p| ==> q[j] == p[j];
      assert |p| <= j < |p| + |name| ==> q[j] == name[j - |p|];
    }
  }

  lemma HoldsBuffer(buffer: string, names: seq<string>)
    requires Holds(buffer, Packed(Admitted(names, 0)))
    ensures buffer == ListBuffer(names)
  {
    var t := ListBuffer(names);
    forall j | 0 <= j < |buffer| ensures buffer[j] == t[j] {
    }
  }

  /** Looking at one more file. */
  lemma AdmitsNext(files: seq<string>, k: nat, offset: nat)
    requires k < |files|
    ensures Admitted(files[k..], offset)
         == if offset + |files[k]| + 1 < DATA_BUF_LEN then [files[k]] + Admitted(files[k + 1..], offset + |files[k]| + 1)
            else Admitted(files[k + 1..], offset)
  {
    assert files[k..][0] == files[k] && files[k..][1..] == files[k + 1..];
  }

  method PackList(files: seq<string>, data: array<char>)
    requires data.Length == DATA_BUF_LEN && data[..] == Zeros(DATA_BUF_LEN)
    modifies data
    ensures data[..] == ListBuffer(files)
  {
    hide Holds, Packed, Admitted;
    var offset := 0;
    var k := 0;
    ghost var done := [];
    NothingPacked(data[..]);
    assert [] + Admitted(files[0..], 0) == Admitted(files, 0);
    while k < |files|
      invariant k <= |files| && offset == |Packed(done)| < DATA_BUF_LEN
      invariant Holds(data[..], Packed(done))
      invariant done + Admitted(files[k..], offset) == Admitted(files, 0)
    {
      var filename := files[k];
      AdmitsNext(files, k, offset);
      if offset + |filename| + 1 < DATA_BUF_LEN {
        ghost var before := data[..];
        StrCpy(data, offset, filename);
        HoldsMore(before, data[..], Packed(done), filename);
        PackedAppend(done, filename);
        assert done + ([filename] + Admitted(files[k + 1..], offset + |filename| + 1))
            == (done + [filename]) + Admitted(files[k + 1..], offset + |filename| + 1);
        done := done + [filename];
        offset := offset + |filename| + 1;
      }
      k := k + 1;
    }
    NothingLeft(files[k..], offset);
    assert done + [] == done;
    HoldsBuffer(data[..], files);
  }

  lemma NothingPacked(buffer: string)
    requires buffer == Zeros(DATA_BUF_LEN)
    ensures Holds(buffer, Packed([])) && Packed([]) == ""
  {
  }

  lemma NothingLeft(files: seq<string>, offset: nat)
    requires files == []
    ensures Admitted(files, offset) == []
  {
  }

  lemma {:induction false} PackedAppend(names: seq<string>, name: string)
    ensures Packed(names + [name]) == Packed(names) + name + [NUL]
  {
    if names == [] {
      assert [name][1..] == [];
    } else {
      assert (names + [name])[1..] == names[1..] + [name];
      PackedAppend(names[1..], name);
    }
  }

  // ---------- scanning ----------

  datatype Scanned = Overrun | Found(names: seq<string>)

  /** The client's scan from a position: a name, its NUL, the next name, until a name would be empty.  It runs past
      the buffer when no NUL stops it. */
  function Scan(s: string, at: nat): Scanned
    decreases |s| - at
  {
    if at >= |s| then Overrun
    else if s[at] == NUL then Found([])
    else
      var file := Terminated(s[at..]);
      if at + |file| == |s| then Overrun
      else
        var rest := Scan(s, at + |file| + 1);
        if rest.Overrun? then Overrun else Found([file] + rest.names)
  }

  lemma ScanSplits(s: string, at: nat)
    requires Scan(s, at).Found?
    ensures at < |s|
    ensures s[at] == NUL ==> Scan(s, at) == Found([])
    ensures s[at] != NUL ==>
              var file := Terminated(s[at..]);
              var rest := Scan(s, at + |file| + 1);
              at + |file| < |s| && rest.Found? && Scan(s, at) == Found([file] + rest.names)
  {
  }

  method UnpackList(data: array<char>) returns (names: seq<string>)
    requires Scan(data[..], 0).Found?
    ensures Scan(data[..], 0) == Found(names)
  {
    hide Scan, Terminated;
    names := [];
    var file := 0;
    ScanSplits(data[..], 0);
    while data[file] != NUL
      invariant file < data.Length && Scan(data[..], file).Found?
      invariant names + Scan(data[..], file).names == Scan(data[..], 0).names
      decreases data.Length - file
    {
      ScanSplits(data[..], file);
      assert data[..][file..] == data[file..];
      var n := StrLen(data, file);
      names := names + [data[file..file + n]];
      file := file + n + 1;
      ScanSplits(data[..], file);
    }
    ScanSplits(data[..], file);
    assert names + [] == names;
  }

  /** The C library's strlen, from a position where a NUL follows. */
  method StrLen(data: array<char>, from: nat) returns (n: nat)
    requires from < data.Length && from + |Terminated(data[from..])| < data.Length
    ensures n == |Terminated(data[from..])| && data[from..from + n] == Terminated(data[from..])
  {
    n := 0;
    ghost var t := Terminated(data[from..]);
    assert data[from..][|t|] == NUL;
    forall j | from <= j < from + |t| ensures data[j] != NUL {
      assert t[j - from] == data[from..][j - from] && t[j - from] in t;
    }
    while data[from + n] != NUL
      invariant n <= |t|
      decreases |t| - n
    {
      n := n + 1;
    }
  }

  /** Two NULs in a row, or one at the start: where the scan stops. */
  ghost predicate Stops(s: string, at: nat) {
    exists i :: at <= i < |s| && s[i] == NUL && (i == at || s[i - 1] == NUL)
  }

  /** The character range of a name and the NUL after it contain no stop. */
  lemma StopsAfterName(s: string, at: nat, next: nat)
    requires at < next < |s| && s[next] == NUL && forall i | at <= i < next :: s[i] != NUL
    ensures Stops(s, at) <==> Stops(s, next + 1)
  {
    if Stops(s, at) {
      var i :| at <= i < |s| && s[i] == NUL && (i == at || s[i - 1] == NUL);
      assert next + 1 <= i && s[i] == NUL;
    }
    if Stops(s, next + 1) {
      var i :| next + 1 <= i < |s| && s[i] == NUL && (i == next + 1 || s[i - 1] == NUL);
      assert s[i - 1] == NUL;
    }
  }

  lemma NameRange(s: string, at: nat)
    requires at <= |s|
    ensures var next := at + |Terminated(s[at..])|;
            next <= |s| && (forall i | at <= i < next :: s[i] != NUL) && (next < |s| ==> s[next] == NUL)
  {
    var file := Terminated(s[at..]);
    forall i | at <= i < at + |file| ensures s[i] != NUL {
      assert file[i - at] == s[at..][i - at] && file[i - at] in file;
    }
  }

  /** The scan stays inside the buffer exactly when the buffer starts with a NUL or holds two NULs in a row. */
  lemma {:induction false} ScanStopsExactly(s: string, at: nat)
    ensures Scan(s, at).Found? <==> Stops(s, at)
    decreases |s| - at
  {
    hide Terminated;
    if at < |s| && s[at] != NUL {
      NameRange(s, at);
      var next := at + |Terminated(s[at..])|;
      if next < |s| {
        ScanStopsExactly(s, next + 1);
        StopsAfterName(s, at, next);
      }
    }
  }

  lemma OneMoreName(before: string, n: string, rest: string, zeros: string)
    requires NUL !in n
    ensures var s := before + (n + [NUL] + rest) + zeros;
            s == (before + n + [NUL]) + rest + zeros && Terminated(s[|before|..]) == n
  {
    var s := before + (n + [NUL] + rest) + zeros;
    var t := s[|before|..];
    assert t == n + [NUL] + rest + zeros;
    assert t[..|n|] == n;
    TerminatedUnique(t, |n|);
  }

  lemma ScanEnd(s: string, at: nat)
    requires at < |s| && s[at] == NUL
    ensures Scan(s, at) == Found([])
  {
  }

  lemma ScanOne(s: string, at: nat, n: string, names: seq<string>)
    requires at < |s| && n != "" && NUL !in n && Terminated(s[at..]) == n && at + |n| < |s|
    requires Scan(s, at + |n| + 1) == Found(names)
    ensures Scan(s, at) == Found([n] + names)
  {
    assert s[at] == s[at..][0] == n[0] && n[0] in n;
  }

  /** Scanning packed names followed by at least one more NUL gives the names back. */
  lemma {:induction false} ScanPacked(before: string, names: seq<string>, zeros: string)
    requires FileNames(names) && zeros != "" && zeros[0] == NUL
    ensures Scan(before + Packed(names) + zeros, |before|) == Found(names)
    decreases |names|
  {
    hide Scan, Terminated;
    var s := before + Packed(names) + zeros;
    if names == [] {
      ScanEnd(s, |before|);
    } else {
      var n := names[0];
      ScanPacked(before + n + [NUL], names[1..], zeros);
      OneMoreName(before, n, Packed(names[1..]), zeros);
      ScanOne(s, |before|, n, names[1..]);
      assert [n] + names[1..] == names;
    }
  }

  /** The client sees exactly the names that the server admitted, in order; all of them when they fit. */
  lemma ListRoundTrip(names: seq<string>)
    requires FileNames(names)
    ensures Scan(ListBuffer(names), 0) == Found(Admitted(names, 0))
    ensures Scan(ListBuffer(names), 0) == Found(names) <==> |Packed(names)| < 3000
  {
    AdmittedFits(names, 0);
    AdmittedNames(names, 0);
    AdmitsAllExactly(names, 0);
    var p := Packed(Admitted(names, 0));
    assert "" + p + Zeros(DATA_BUF_LEN - |p|) == ListBuffer(names);
    ScanPacked("", Admitted(names, 0), Zeros(DATA_BUF_LEN - |p|));
  }

  /** The ls command from directory to screen. */
  method ListFiles(files: seq<string>) returns (shown: seq<string>)
    requires FileNames(files)
    ensures shown == Admitted(files, 0)
  {
    ListRoundTrip(files);
    var dataMsg := new DataMsg();
    assert dataMsg.data[..] == Zeros(DATA_BUF_LEN);
    PackList(files, dataMsg.data);
    shown := UnpackList(dataMsg.data);
  }
}
