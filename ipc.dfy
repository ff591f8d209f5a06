/**
 * Package `ipc`, file ipc_windows.go: the named-pipe address of a session and
 * the attach client `Read`, which dials the session's pipe, writes one
 * space-joined request and returns what a single read into a 1024-byte
 * buffer delivered.
 *
 * Strings stand for their bytes (one character per byte). The pipe is an
 * oracle: `dial`, `write` and `read` say how the other end behaves.
 */
module Ipc {
  import opened Wrappers
  import opened GoTypes

  /** The Windows pipe namespace, `\\.\pipe\`. */
  const PipeNamespace: string := "\\\\.\\pipe\\"

  /** Size of the buffer the client reads the response into. */
  const BufferSize: nat := 1024

  /** The pipe address of a session; `listen` and `Read` derive it the same way. */
  function PipePath(session: string): (path: string)
    ensures |path| == |session| + 13
    ensures path[13..] == session
  {
    PipeNamespace + "ipc_" + session
  }

  /** The server of session `uuid` and a client given `ipsid` meet exactly when the two IDs are equal. */
  lemma PipePathInjective(uuid: string, ipsid: string)
    ensures PipePath(uuid) == PipePath(ipsid) <==> uuid == ipsid
  {
    if PipePath(uuid) == PipePath(ipsid) {
      assert uuid == PipePath(uuid)[13..];
    }
  }

  /** The request the client writes: the three fields joined by single spaces. */
  function Frame(ipsid: string, ipcid: string, msg: string): (f: string)
    ensures |f| == |ipsid| + |ipcid| + |msg| + 2
    ensures f[..|ipsid|] == ipsid && f[|ipsid|] == ' '
    ensures f[|ipsid| + 1..|ipsid| + 1 + |ipcid|] == ipcid && f[|ipsid| + 1 + |ipcid|] == ' '
    ensures f[|ipsid| + |ipcid| + 2..] == msg
  {
    ipsid + " " + ipcid + " " + msg
  }

  /** Position of the first space in `s`, or |s| when there is none. */
  function FirstSpace(s: string): (k: nat)
    ensures k <= |s|
    ensures forall i :: 0 <= i < k ==> s[i] != ' '
    ensures k < |s| ==> s[k] == ' '
  {
    if s == [] || s[0] == ' ' then 0 else 1 + FirstSpace(s[1..])
  }

  /** Reads a request back as session, channel and message, splitting at the first two spaces. */
  function SplitFrame(s: string): Option<(string, string, string)>
  {
    var i := FirstSpace(s);
    if i == |s| then None
    else
      var rest := s[i + 1..];
      var j := FirstSpace(rest);
      if j == |rest| then None
      else Some((s[..i], rest[..j], rest[j + 1..]))
  }

  lemma FirstSpaceAfter(a: string, rest: string)
    requires ' ' !in a
    ensures FirstSpace(a + " " + rest) == |a|
  {
    var s := a + " " + rest;
    assert s[|a|] == ' ';
    assert forall i :: 0 <= i < |a| ==> s[i] == a[i];
  }

  /** When neither ID contains a space, the request determines all three fields. */
  lemma FrameRoundTrip(ipsid: string, ipcid: string, msg: string)
    requires ' ' !in ipsid && ' ' !in ipcid
    ensures SplitFrame(Frame(ipsid, ipcid, msg)) == Some((ipsid, ipcid, msg))
  {
    var s := Frame(ipsid, ipcid, msg);
    assert s == ipsid + " " + (ipcid + " " + msg);
    FirstSpaceAfter(ipsid, ipcid + " " + msg);
    var rest := s[|ipsid| + 1..];
    assert rest == ipcid + " " + msg;
    FirstSpaceAfter(ipcid, msg);
    assert s[..|ipsid|] == ipsid;
    assert rest[..|ipcid|] == ipcid;
    assert rest[|ipcid| + 1..] == msg;
  }

  /** Without escaping, a space inside an ID makes two different requests look alike. */
  lemma FrameAmbiguous()
    ensures Frame("s 1", "c", "m") == Frame("s", "1 c", "m")
  {
  }

  /** The calls the client makes on the pipe, in order. */
  datatype PipeOp = Dial(path: string) | Write(data: string) | ReadCall(capacity: nat) | Close

  /**
   * The other end of the pipe: whether dialling a path succeeds (and with which
   * connection), whether a write succeeds, and what one read delivers.
   */
  datatype Pipe<!C> = Pipe(
    dial: string -> Result<C, Error>,
    write: (C, string) -> Option<Error>,
    read: C -> Result<string, Error>)

  /**
   * Read(ipsid, ipcid, msg): dial the session's pipe, write the framed request
   * once, read once into a 1024-byte buffer and return what was read. Each
   * failure returns ("", err) at once; a connection that was opened is closed.
   */
  method Read<C>(ipsid: string, ipcid: string, msg: string, pipe: Pipe<C>)
    returns (response: string, err: Option<Error>, ops: seq<PipeOp>)
    ensures pipe.dial(PipePath(ipsid)).Failure? ==>
              response == "" && err == Some(pipe.dial(PipePath(ipsid)).error) && ops == [Dial(PipePath(ipsid))]
    ensures pipe.dial(PipePath(ipsid)).Success? ==>
              var c := pipe.dial(PipePath(ipsid)).value;
              var request := Frame(ipsid, ipcid, msg);
              && (pipe.write(c, request).Some? ==>
                    && response == "" && err == pipe.write(c, request)
                    && ops == [Dial(PipePath(ipsid)), Write(request), Close])
              && (pipe.write(c, request).None? ==>
                    ops == [Dial(PipePath(ipsid)), Write(request), ReadCall(BufferSize), Close])
              && (pipe.write(c, request).None? && pipe.read(c).Failure? ==>
                    response == "" && err == Some(pipe.read(c).error))
              && (pipe.write(c, request).None? && pipe.read(c).Success? ==>
                    err == None && response == pipe.read(c).value[..Min(|pipe.read(c).value|, BufferSize)])
    ensures |response| <= BufferSize
  {
    var path := PipePath(ipsid);
    ops := [Dial(path)];
    var dialed := pipe.dial(path);
    if dialed.Failure? {
      return "", Some(dialed.error), ops;
    }
    var c := dialed.value;

    var request := Frame(ipsid, ipcid, msg);
    ops := ops + [Write(request)];
    var werr := pipe.write(c, request);
    if werr.Some? {
      ops := ops + [Close];
      return "", werr, ops;
    }

    var buf := new char[BufferSize];
    ops := ops + [ReadCall(BufferSize)];
    var got := pipe.read(c);
    if got.Failure? {
      ops := ops + [Close];
      return "", Some(got.error), ops;
    }
    var n := Min(|got.value|, BufferSize);
    forall i | 0 <= i < n {
      buf[i] := got.value[i];
    }
    response, err := buf[0..n], None;
    ops := ops + [Close];
  }
}
