/** The two datagrams of the backup system: fixed-size character buffers that hold C strings. */
module Messages {

  const FILE_NAME_LEN := 128
  const DATA_BUF_LEN := 3000
  const NUL := '\0'

  /** The C string at the start of a buffer: what comes before the first NUL. */
  function Terminated(s: string): (t: string)
    ensures |t| <= |s| && t == s[..|t|] && NUL !in t
    ensures |t| < |s| ==> s[|t|] == NUL
  {
    if s == "" || s[0] == NUL then "" else [s[0]] + Terminated(s[1..])
  }

  lemma {:induction false} TerminatedUnique(s: string, n: nat)
    requires n <= |s| && NUL !in s[..n] && (n < |s| ==> s[n] == NUL)
    ensures Terminated(s) == s[..n]
  {
    if n > 0 {
      assert s[..n][0] == s[0] && s[..n][1..] == s[1..][..n - 1];
      TerminatedUnique(s[1..], n - 1);
    }
  }

  function Shortened(s: string, n: nat): (t: string)
    ensures |t| <= n
  {
    if |s| <= n then s else s[..n]
  }

  /** The name that arrives in a command message, and the one that arrives in a data message. */
  function CommandName(name: string): string {
    Shortened(Terminated(name), FILE_NAME_LEN - 1)
  }

  function DataName(name: string): string {
    Terminated(Shortened(name, DATA_BUF_LEN - 1))
  }

  /** What arrives is the name up to its first NUL, or its first 127 characters, or 2999 in a data message. */
  lemma NameCut(name: string, n: nat)
    requires n <= |name| && NUL !in name[..n]
    ensures n <= 127 && (n == |name| || n == 127 || name[n] == NUL) ==> CommandName(name) == name[..n]
    ensures n <= 2999 && (n == |name| || n == 2999 || name[n] == NUL) ==> DataName(name) == name[..n]
  {
    var t := Terminated(name);
    if n == |name| || name[n] == NUL {
      TerminatedUnique(name, n);
    }
    if n <= 127 {
      assert t[..n] == name[..n];
    }
    if n <= 2999 {
      var s := Shortened(name, 2999);
      assert s[..n] == name[..n];
      TerminatedUnique(s, if n == |name| || n == 2999 || name[n] == NUL then n else |Terminated(s)|);
    }
  }

  /** A name arrives unchanged in a command exactly when it has at most 127 characters and no NUL. */
  lemma CommandNameExact(name: string)
    ensures CommandName(name) == name <==> |name| <= 127 && NUL !in name
  {
    if NUL !in name {
      TerminatedUnique(name, |name|);
    }
  }

  lemma DataNameExact(name: string)
    ensures DataName(name) == name <==> |name| <= 2999 && NUL !in name
  {
    if NUL !in name && |name| < DATA_BUF_LEN {
      TerminatedUnique(name, |name|);
    }
  }

  class CmdMsg {
    var cmd: int
    const filename: array<char>
    var size: int
    var port: int
    var error: int

    constructor ()
      ensures fresh(filename) && filename.Length == FILE_NAME_LEN && filename[..] == seq(FILE_NAME_LEN, _ => NUL)
      ensures cmd == size == port == error == 0
    {
      cmd, size, port, error := 0, 0, 0, 0;
      filename := new char[FILE_NAME_LEN](_ => NUL);
    }

    /** Copies the name, pads with NULs and always terminates. */
    method SetFilename(name: string)
      requires filename.Length == FILE_NAME_LEN
      modifies filename
      ensures Terminated(filename[..]) == CommandName(name)
      ensures forall i :: |CommandName(name)| <= i < FILE_NAME_LEN ==> filename[i] == NUL
    {
      ghost var wire := CommandName(name);
      var i := 0;
      while i < FILE_NAME_LEN - 1 && i < |name| && name[i] != NUL
        invariant i <= |wire| && filename[..i] == wire[..i]
      {
        filename[i] := name[i];
        i := i + 1;
      }
      while i < FILE_NAME_LEN - 1
        invariant |wire| <= i < FILE_NAME_LEN && filename[..|wire|] == wire
        invariant forall j :: |wire| <= j < i ==> filename[j] == NUL
      {
        filename[i] := NUL;
        i := i + 1;
      }
      filename[FILE_NAME_LEN - 1] := NUL;
      TerminatedUnique(filename[..], |wire|);
    }
  }

  class DataMsg {
    const data: array<char>

    constructor ()
      ensures fresh(data) && data.Length == DATA_BUF_LEN && data[..] == seq(DATA_BUF_LEN, _ => NUL)
    {
      data := new char[DATA_BUF_LEN](_ => NUL);
    }

    /** Copies at most 2999 characters and terminates them. */
    method SetData(src: string)
      requires data.Length == DATA_BUF_LEN
      modifies data
      ensures Terminated(data[..]) == DataName(src)
    {
      var copyLen := if |src| < DATA_BUF_LEN then |src| else DATA_BUF_LEN - 1;
      var i := 0;
      while i < copyLen
        invariant i <= copyLen && data[..i] == src[..i]
      {
        data[i] := src[i];
        i := i + 1;
      }
      data[copyLen] := NUL;
      ghost var wire := DataName(src);
      assert data[..copyLen] == src[..copyLen];
      TerminatedUnique(data[..], |wire|);
    }
  }
}
