/**
 * Package `nsterm`, file raw_ldisc.go: the raw line discipline, a relay that
 * moves bytes between the "mustar" and "sluva" endpoints of a virtual
 * terminal and collects transfer errors instead of raising them.
 *
 * Each endpoint is modelled as the FIFO of bytes that can be read from it;
 * writing to an endpoint appends to its FIFO.
 */
module Nsterm {
  import opened Wrappers
  import opened GoTypes

  /** The state of both endpoints after io.CopyN, and the error it returned. */
  datatype CopyResult = CopyResult(dst: seq<byte>, src: seq<byte>, err: Option<Error>)

  /**
   * `io.CopyN(dst, src, n)`: moves min(n, |src|) bytes from the front of
   * `src` to the back of `dst`, in order; returns io.EOF exactly when fewer
   * than `n` bytes were available. A non-positive `n` copies nothing and
   * returns no error.
   */
  function CopyN(dst: seq<byte>, src: seq<byte>, n: int): (c: CopyResult)
    ensures c.dst + c.src == dst + src
    ensures |c.dst| == |dst| + (if n <= 0 then 0 else Min(n, |src|))
    ensures c.err.Some? <==> 0 < n && |src| < n
    ensures c.err.Some? ==> c.err.value == EOF
  {
    var k := if n <= 0 then 0 else Min(n, |src|);
    CopyResult(dst + src[..k], src[k..], if 0 < n && |src| < n then Some(EOF) else None)
  }

  /** With at least `n` bytes pending, exactly the first `n` of them are moved and no error is reported. */
  lemma CopyNExact(dst: seq<byte>, src: seq<byte>, n: nat)
    requires n <= |src|
    ensures CopyN(dst, src, n) == CopyResult(dst + src[..n], src[n..], None)
  {
    var c := CopyN(dst, src, n);
    assert |c.dst| == |dst| + n;
    assert c.dst == (c.dst + c.src)[..|dst| + n];
    assert c.src == (c.dst + c.src)[|dst| + n..];
    assert (dst + src)[..|dst| + n] == dst + src[..n];
  }

  /** Two successful transfers in the same direction amount to one transfer of their sum. */
  lemma CopyNCompose(dst: seq<byte>, src: seq<byte>, n: nat, m: nat)
    requires n + m <= |src|
    ensures var c1 := CopyN(dst, src, n);
            CopyN(c1.dst, c1.src, m) == CopyN(dst, src, n + m)
  {
    CopyNExact(dst, src, n);
    CopyNExact(dst + src[..n], src[n..], m);
    CopyNExact(dst, src, n + m);
    assert dst + src[..n] + src[n..][..m] == dst + src[..n + m];
    assert src[n..][m..] == src[n + m..];
  }

  class RawLdisc {
    var mustarFD: Option<seq<byte>>
    var sluvaFD: Option<seq<byte>>
    var errs: seq<Error>

    /** NewRawLdisc: both endpoints unset, no errors. */
    constructor ()
      ensures mustarFD == None && sluvaFD == None && errs == []
    {
      mustarFD, sluvaFD, errs := None, None, [];
    }

    method SetMustarFD(fd: seq<byte>)
      modifies this
      ensures mustarFD == Some(fd)
      ensures sluvaFD == old(sluvaFD) && errs == old(errs)
    {
      mustarFD := Some(fd);
    }

    method SetSluvaFD(fd: seq<byte>)
      modifies this
      ensures sluvaFD == Some(fd)
      ensures mustarFD == old(mustarFD) && errs == old(errs)
    {
      sluvaFD := Some(fd);
    }

    /**
     * Relays `n` bytes from mustar to sluva. A short transfer appends exactly
     * one error; `errs` only ever grows.
     */
    method ReceiveMustarBuff(n: int)
      requires mustarFD.Some? && sluvaFD.Some?
      modifies this
      ensures var c := CopyN(old(sluvaFD.value), old(mustarFD.value), n);
              && sluvaFD == Some(c.dst) && mustarFD == Some(c.src)
              && errs == old(errs) + (if c.err.Some? then [c.err.value] else [])
    {
      var c := CopyN(sluvaFD.value, mustarFD.value, n);
      sluvaFD, mustarFD := Some(c.dst), Some(c.src);
      if c.err.Some? {
        errs := errs + [c.err.value];
      }
    }

    /** The mirror relay, from sluva to mustar. */
    method ReceiveSluvaBuff(n: int)
      requires mustarFD.Some? && sluvaFD.Some?
      modifies this
      ensures var c := CopyN(old(mustarFD.value), old(sluvaFD.value), n);
              && mustarFD == Some(c.dst) && sluvaFD == Some(c.src)
              && errs == old(errs) + (if c.err.Some? then [c.err.value] else [])
    {
      var c := CopyN(mustarFD.value, sluvaFD.value, n);
      mustarFD, sluvaFD := Some(c.dst), Some(c.src);
      if c.err.Some? {
        errs := errs + [c.err.value];
        return;
      }
    }

    /** Does nothing. */
    method IOctl()
      ensures unchanged(this)
    {
    }

    /** Releases nothing and always succeeds. */
    method Close() returns (err: Option<Error>)
      ensures err == None
    {
      err := None;
    }
  }

  /**
   * A relay of K pending bytes delivers exactly those K bytes, in order, to
   * the other endpoint without an error; asking for one byte more than is
   * pending on the way back records exactly one error.
   */
  method RelayScenario(pending: seq<byte>, k: nat)
    requires k <= |pending|
  {
    var ld := new RawLdisc();
    ld.SetMustarFD(pending);
    ld.SetSluvaFD([]);
    ld.ReceiveMustarBuff(k);
    assert ld.sluvaFD == Some(pending[..k]) by {
      CopyNExact([], pending, k);
      assert [] + pending[..k] == pending[..k];
    }
    assert ld.errs == [];
    ld.ReceiveSluvaBuff(k + 1);
    assert |ld.errs| == 1;
  }
}
