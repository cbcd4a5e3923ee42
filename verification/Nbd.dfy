/** Chunked transfer over NBD requests and simple replies. */
module Nbd {
  import opened Common
  import opened Wire

  const RequestMagic := 0x25609513
  const SimpleReplyMagic := 0x67446698
  const CmdRead := 0
  const CmdWrite := 1
  const Chunk := 0x10_0000

  datatype Request = Request(cmd: nat, handle: nat, offset: nat, length: nat)

  function RequestFields(q: Request): seq<Field> {
    [Field(RequestMagic, 4), Field(0, 2), Field(q.cmd, 2), Field(q.handle, 8), Field(q.offset, 8), Field(q.length, 4)]
  }

  function ReplyFields(magic: nat, errno: nat, handle: nat): seq<Field> {
    [Field(magic, 4), Field(errno, 4), Field(handle, 8)]
  }

  const RequestWidths: seq<nat> := [4, 2, 2, 8, 8, 4]
  const ReplyWidths: seq<nat> := [4, 4, 8]

  lemma RequestReadsBack(q: Request)
    requires Fits(RequestFields(q))
    ensures Unpacked(RequestWidths, Packed(RequestFields(q))) == Some([RequestMagic, 0, q.cmd, q.handle, q.offset, q.length])
  {
    UnpacksBack(RequestFields(q));
    RequestShape(q);
  }

  lemma RequestShape(q: Request)
    ensures Widths(RequestFields(q)) == RequestWidths
    ensures Values(RequestFields(q)) == [RequestMagic, 0, q.cmd, q.handle, q.offset, q.length]
  {
    var f := RequestFields(q);
    assert |f| == 6;
  }

  lemma ReplyReadsBack(magic: nat, errno: nat, handle: nat)
    requires Fits(ReplyFields(magic, errno, handle))
    ensures Unpacked(ReplyWidths, Packed(ReplyFields(magic, errno, handle))) == Some([magic, errno, handle])
  {
    var f := ReplyFields(magic, errno, handle);
    UnpacksBack(f);
    assert Widths(f) == ReplyWidths;
    assert Values(f) == [magic, errno, handle];
  }

  // ---- a device as one sequence of bytes --------------------------------------------------

  /** The bytes with `data` in place of what was at `offset`. */
  function Splice(s: seq<byte>, offset: nat, data: seq<byte>): seq<byte>
    requires offset + |data| <= |s|
  {
    s[..offset] + data + s[offset + |data|..]
  }

  /** Two splices side by side are one. */
  lemma SplicesJoin(s: seq<byte>, offset: nat, a: seq<byte>, b: seq<byte>)
    requires offset + |a| + |b| <= |s|
    ensures Splice(Splice(s, offset, a), offset + |a|, b) == Splice(s, offset, a + b)
  {
  }

  /** The first `n` bytes of `data` have been written at `offset`, and nothing else. */
  predicate Wrote(before: seq<byte>, after: seq<byte>, offset: nat, data: seq<byte>, n: nat) {
    n <= |data| && offset + n <= |before| && after == Splice(before, offset, data[..n])
  }

  lemma WroteMore(before: seq<byte>, mid: seq<byte>, after: seq<byte>, offset: nat, data: seq<byte>, n: nat, m: nat)
    requires Wrote(before, mid, offset, data, n) && n <= m <= |data| && offset + m <= |before|
    requires after == Splice(mid, offset + n, data[n..m])
    ensures Wrote(before, after, offset, data, m)
  {
    SplicesJoin(before, offset, data[..n], data[n..m]);
    assert data[..n] + data[n..m] == data[..m];
  }

  /** Reading where one has written gives the data back; reading elsewhere sees no difference. */
  lemma ReadAfterWrite(s: seq<byte>, offset: nat, data: seq<byte>, from: nat, length: nat)
    requires offset + |data| <= |s| && from + length <= |s|
    ensures Splice(s, offset, data)[offset..offset + |data|] == data
    ensures from + length <= offset || offset + |data| <= from ==> Splice(s, offset, data)[from..from + length] == s[from..from + length]
  {
    var t := Splice(s, offset, data);
    assert |t| == |s|;
    forall k | from <= k < from + length && (from + length <= offset || offset + |data| <= from) ensures t[k] == s[k] {}
  }

  // ---- the server -------------------------------------------------------------------------

  /** What can go wrong with one request: the server refuses it, or serves it and answers in a way the
      client may not be able to take for an answer to it, or closes, before serving it or after. */
  datatype Fault = Refuses(errno: nat) | BadMagic(magic: nat) | BadHandle(handle: nat) | Closes(served: bool)

  /** Why the client gives up. */
  datatype Error = Unpackable | Desynchronised | WrongHandle | ServerErrno | Closed | Refused

  const Eio := 5
  const Einval := 22

  /** The request lies within the device and carries the data it says it does. */
  predicate InRange(size: nat, q: Request, data: seq<byte>) {
    q.offset + q.length <= size && (q.cmd == CmdWrite ==> |data| == q.length)
  }

  predicate Hangs(fault: Option<Fault>) { fault.Some? && fault.value.Closes? }

  predicate Served(size: nat, q: Request, data: seq<byte>, fault: Option<Fault>) {
    InRange(size, q, data) && !(fault.Some? && (fault.value.Refuses? || fault.value == Closes(false)))
  }

  /** The device once the server has dealt with the request. */
  function DiskAfter(disk: seq<byte>, q: Request, data: seq<byte>, fault: Option<Fault>): seq<byte> {
    if q.cmd == CmdWrite && Served(|disk|, q, data, fault) then Splice(disk, q.offset, data) else disk
  }

  function Errno(size: nat, q: Request, data: seq<byte>, fault: Option<Fault>): nat {
    if fault.Some? && fault.value.Refuses? then (if 0 < fault.value.errno < Power(4) then fault.value.errno else Eio)
    else if InRange(size, q, data) then 0 else Einval
  }

  function ReplyTo(size: nat, q: Request, data: seq<byte>, fault: Option<Fault>): seq<Field> {
    ReplyFields(if fault.Some? && fault.value.BadMagic? then fault.value.magic % Power(4) else SimpleReplyMagic,
                Errno(size, q, data, fault),
                if fault.Some? && fault.value.BadHandle? then fault.value.handle % Power(8) else q.handle)
  }

  /** The client takes the reply for a success. */
  predicate Accepted(size: nat, q: Request, data: seq<byte>, fault: Option<Fault>) {
    && !Hangs(fault) && Served(size, q, data, fault)
    && (fault.Some? && fault.value.BadMagic? ==> fault.value.magic % Power(4) == SimpleReplyMagic)
    && (fault.Some? && fault.value.BadHandle? ==> fault.value.handle % Power(8) == q.handle)
  }

  lemma Powers()
    ensures Power(2) == 0x1_0000 && Power(4) == 0x1_0000_0000 && Power(8) == 0x1_0000_0000_0000_0000
  {
    assert Power(1) == 256;
    assert Power(2) == 0x1_0000;
    assert Power(3) == 0x100_0000;
    assert Power(4) == 0x1_0000_0000;
    assert Power(5) == 0x100_0000_0000;
    assert Power(6) == 0x1_0000_0000_0000;
    assert Power(7) == 0x100_0000_0000_0000;
  }

  lemma ReplyFits(size: nat, q: Request, data: seq<byte>, fault: Option<Fault>)
    requires q.handle < Power(8)
    ensures Fits(ReplyTo(size, q, data, fault))
  {
    Powers();
  }

  /** What the client makes of the reply's three fields is whether the request was served and said so. */
  lemma AcceptedIsServed(size: nat, q: Request, data: seq<byte>, fault: Option<Fault>)
    requires q.handle < Power(8) && !Hangs(fault)
    ensures Unpacked(ReplyWidths, Packed(ReplyTo(size, q, data, fault))) == Some(Values(ReplyTo(size, q, data, fault)))
    ensures Values(ReplyTo(size, q, data, fault)) == [SimpleReplyMagic, 0, q.handle] <==> Accepted(size, q, data, fault)
  {
    var f := ReplyTo(size, q, data, fault);
    ReplyFits(size, q, data, fault);
    ReplyReadsBack(f[0].value, f[1].value, f[2].value);
    assert Values(f) == [f[0].value, f[1].value, f[2].value];
  }

  /** The checks a reply must pass, in order; `None` when it passes them all. */
  function Judge(reply: Option<seq<byte>>, handle: nat): Option<Error> {
    if reply.None? then Some(Closed)
    else
      var fields := Unpacked(ReplyWidths, reply.value);
      if fields.None? || |fields.value| != 3 then Some(Closed)
      else if fields.value[0] != SimpleReplyMagic then Some(Desynchronised)
      else if fields.value[2] != handle then Some(WrongHandle)
      else if fields.value[1] != 0 then Some(ServerErrno)
      else None
  }

  function WireReply(size: nat, q: Request, data: seq<byte>, fault: Option<Fault>): Option<seq<byte>> {
    if Hangs(fault) then None else Some(Packed(ReplyTo(size, q, data, fault)))
  }

  /** A reply passes exactly when the request was served and the reply says so. */
  lemma JudgedByService(size: nat, q: Request, data: seq<byte>, fault: Option<Fault>)
    requires q.handle < Power(8)
    ensures Judge(WireReply(size, q, data, fault), q.handle) == None <==> Accepted(size, q, data, fault)
  {
    if !Hangs(fault) {
      AcceptedIsServed(size, q, data, fault);
      var v := Values(ReplyTo(size, q, data, fault));
      assert v == [v[0], v[1], v[2]];
    }
  }

  /** And which check it fails otherwise. */
  lemma JudgedWhy(size: nat, q: Request, data: seq<byte>, fault: Option<Fault>)
    requires q.handle < Power(8) && !Accepted(size, q, data, fault)
    ensures Judge(WireReply(size, q, data, fault), q.handle) == Some(
      if Hangs(fault) then Closed
      else if fault.Some? && fault.value.BadMagic? && fault.value.magic % Power(4) != SimpleReplyMagic then Desynchronised
      else if fault.Some? && fault.value.BadHandle? && fault.value.handle % Power(8) != q.handle then WrongHandle
      else ServerErrno)
  {
    if !Hangs(fault) {
      AcceptedIsServed(size, q, data, fault);
      var v := Values(ReplyTo(size, q, data, fault));
      assert v == [v[0], v[1], v[2]];
    }
  }

  class Server {
    const disk: array<byte>
    var faults: seq<Option<Fault>>

    constructor (size: nat, faults: seq<Option<Fault>>)
      ensures fresh(disk) && disk.Length == size && this.faults == faults
    {
      disk := new byte[size](_ => 0);
      this.faults := faults;
    }

    ghost function NextFault(): Option<Fault>
      reads this
    {
      if faults == [] then None else faults[0]
    }

    /** One request, off the wire. */
    method Serve(header: seq<byte>, data: seq<byte>, ghost q: Request) returns (reply: Option<seq<byte>>, payload: seq<byte>)
      requires header == Packed(RequestFields(q)) && Fits(RequestFields(q))
      modifies this, disk
      ensures faults == if old(faults) == [] then [] else old(faults)[1..]
      ensures disk[..] == DiskAfter(old(disk[..]), q, data, old(NextFault()))
      ensures reply == WireReply(disk.Length, q, data, old(NextFault()))
      ensures payload == if q.cmd == CmdRead && Served(disk.Length, q, data, old(NextFault())) then disk[q.offset..q.offset + q.length] else []
    {
      var fault := if faults == [] then None else faults[0];
      faults := if faults == [] then [] else faults[1..];
      RequestReadsBack(q);
      var fields := Unpacked(RequestWidths, header).value;
      var got := Request(fields[2], fields[3], fields[4], fields[5]);
      payload := [];
      if Served(disk.Length, got, data, fault) {
        if got.cmd == CmdWrite {
          Store(got.offset, data);
        } else if got.cmd == CmdRead {
          payload := disk[got.offset..got.offset + got.length];
        }
      }
      reply := WireReply(disk.Length, got, data, fault);
    }

    method Store(offset: nat, data: seq<byte>)
      requires offset + |data| <= disk.Length
      modifies disk
      ensures disk[..] == Splice(old(disk[..]), offset, data)
    {
      ghost var before := disk[..];
      for i := 0 to |data|
        invariant forall k :: 0 <= k < disk.Length ==> disk[k] == if offset <= k < offset + i then data[k - offset] else before[k]
      {
        disk[offset + i] := data[i];
      }
    }
  }

  // ---- the client -------------------------------------------------------------------------

  function Min(a: nat, b: nat): nat { if a < b then a else b }

  function Tail(cuts: seq<nat>): seq<nat> { if cuts == [] then [] else cuts[1..] }

  /** How much a read gets: what it wants, what the stream cares to give, or what is left. */
  function Piece(want: nat, cuts: seq<nat>, left: nat): nat { Min(if cuts == [] then want else Min(want, cuts[0]), left) }

  /** The pieces a copy of `total` bytes gets from a stream, until one is empty. */
  function Delivery(left: nat, cuts: seq<nat>, total: nat): seq<nat>
    decreases total
  {
    var p := Piece(Min(Chunk, total), cuts, left);
    if p == 0 then [] else [p] + Delivery(left - p, Tail(cuts), total - p)
  }

  function Sum(ps: seq<nat>): nat { if ps == [] then 0 else Sum(ps[..|ps| - 1]) + ps[|ps| - 1] }

  lemma {:induction false} SumFirst(p: nat, ps: seq<nat>)
    ensures Sum([p] + ps) == p + Sum(ps)
  {
    if ps == [] {
      assert [p] + ps == [p] && [p][..0] == [];
    } else {
      assert ([p] + ps)[..|ps|] == [p] + ps[..|ps| - 1];
      SumFirst(p, ps[..|ps| - 1]);
    }
  }

  /** A stream that gives something each time gives all that is wanted or all there is. */
  lemma {:induction false} DeliversAll(left: nat, cuts: seq<nat>, total: nat)
    requires forall i :: 0 <= i < |cuts| ==> cuts[i] > 0
    ensures Sum(Delivery(left, cuts, total)) == Min(left, total)
    decreases total
  {
    var p := Piece(Min(Chunk, total), cuts, left);
    if p > 0 {
      DeliversAll(left - p, Tail(cuts), total - p);
      SumFirst(p, Delivery(left - p, Tail(cuts), total - p));
    }
  }

  // ---- requests one after the other -------------------------------------------------------

  function FaultAt(faults: seq<Option<Fault>>, k: nat): Option<Fault> { if k < |faults| then faults[k] else None }

  function FaultsAfter(faults: seq<Option<Fault>>, k: nat): seq<Option<Fault>> { if k <= |faults| then faults[k..] else [] }

  /** A request that is in range is answered in a way the client takes for success. */
  predicate Passes(fault: Option<Fault>, handle: nat) {
    && handle < Power(8)
    && (fault.Some? ==> (fault.value.BadMagic? && fault.value.magic % Power(4) == SimpleReplyMagic)
                        || (fault.value.BadHandle? && fault.value.handle % Power(8) == handle))
  }

  /** Passing or not, the server has done it. */
  predicate Lands(fault: Option<Fault>, handle: nat) {
    handle < Power(8) && !(fault.Some? && (fault.value.Refuses? || fault.value == Closes(false)))
  }

  /** The next `n` requests all pass. */
  predicate AllPass(faults: seq<Option<Fault>>, handle: nat, n: nat) {
    forall k :: 0 <= k < n ==> Passes(FaultAt(faults, k), handle + 1 + k)
  }

  /** Of the next requests the one after `n` is the first not to pass. */
  predicate StopsAfter(faults: seq<Option<Fault>>, handle: nat, n: nat) {
    AllPass(faults, handle, n) && !Passes(FaultAt(faults, n), handle + 1 + n)
  }

  lemma OnePasses(size: nat, q: Request, data: seq<byte>, fault: Option<Fault>)
    requires q.handle < Power(8) && InRange(size, q, data)
    ensures Accepted(size, q, data, fault) <==> Passes(fault, q.handle)
    ensures Served(size, q, data, fault) <==> Lands(fault, q.handle)
  {
  }

  /** The chunks of a buffer: what a stream gives that never holds back. */
  function Chunks(length: nat): seq<nat> { Delivery(length, [], length) }

  /** They are all full but the last, and together the buffer. */
  lemma {:induction false} ChunksAre(length: nat)
    ensures |Chunks(length)| == (length + Chunk - 1) / Chunk && Sum(Chunks(length)) == length
    ensures forall i :: 0 <= i < |Chunks(length)| - 1 ==> Chunks(length)[i] == Chunk
  {
    DeliversAll(length, [], length);
    if length > Chunk { ChunksAre(length - Chunk); }
  }

  /** A stream that delivers its bytes in whatever pieces it likes; an empty piece ends it. */
  class Stream {
    const data: seq<byte>
    var pos: nat
    var cuts: seq<nat>

    constructor (data: seq<byte>, cuts: seq<nat>)
      ensures this.data == data && pos == 0 && this.cuts == cuts
    {
      this.data, this.pos, this.cuts := data, 0, cuts;
    }

    method Read(want: nat) returns (chunk: seq<byte>)
      requires pos <= |data|
      modifies this
      ensures pos == old(pos) + |chunk| <= |data| && chunk == data[old(pos)..pos]
      ensures |chunk| == Piece(want, old(cuts), |data| - old(pos)) && cuts == Tail(old(cuts))
    {
      var n := if cuts == [] || want < cuts[0] then want else cuts[0];
      n := if |data| - pos < n then |data| - pos else n;
      cuts := if cuts == [] then [] else cuts[1..];
      chunk := data[pos..pos + n];
      pos := pos + n;
    }
  }

  predicate Packable(q: Request) { Fits(RequestFields(q)) }

  lemma PackableIf(q: Request)
    ensures Packable(q) <==> q.cmd < Power(2) && q.handle < Power(8) && q.offset < Power(8) && q.length < Power(4)
  {
    Powers();
    var f := RequestFields(q);
    assert f[0].value == RequestMagic && f[0].width == 4;
    assert f[2] in f && f[3] in f && f[4] in f && f[5] in f;
  }

  /** Without faults, requests pass until the handles run out. */
  lemma NoFaultsPass(faults: seq<Option<Fault>>, handle: nat, n: nat)
    requires (forall i :: 0 <= i < |faults| ==> faults[i] == None) && handle + n < Power(8)
    ensures AllPass(faults, handle, n)
  {
  }

  class NbdWriter {
    const server: Server
    const size: nat
    var handle: nat

    /** The size the server reported, which the handshake carries in eight bytes. */
    ghost predicate Valid()
      reads this, server
    {
      size == server.disk.Length < Power(8)
    }

    constructor (server: Server)
      requires server.disk.Length < Power(8)
      ensures Valid() && this.server == server && handle == 0
    {
      this.server := server;
      size := server.disk.Length;
      handle := 0;
    }

    /** One request and its reply. A request that succeeds was served; one that fails was served or
        left the device alone. */
    method DoRequest(cmd: nat, offset: nat, length: nat, data: seq<byte>) returns (r: Result<seq<byte>, Error>)
      requires Valid() && (cmd == CmdRead || cmd == CmdWrite)
      modifies this, server, server.disk
      ensures Valid() && handle == old(handle) + 1
      ensures !Packable(Request(cmd, handle, offset, length)) ==>
        r == Err(Unpackable) && server.disk[..] == old(server.disk[..]) && server.faults == old(server.faults)
      ensures Packable(Request(cmd, handle, offset, length)) ==>
        && server.disk[..] == DiskAfter(old(server.disk[..]), Request(cmd, handle, offset, length), data, old(server.NextFault()))
        && server.faults == (if old(server.faults) == [] then [] else old(server.faults)[1..])
        && (r.Ok? <==> Accepted(size, Request(cmd, handle, offset, length), data, old(server.NextFault())))
        && (r.Ok? ==> r.value == if cmd == CmdRead then server.disk[offset..offset + length] else [])
    {
      handle := handle + 1;
      var q := Request(cmd, handle, offset, length);
      if !Packable(q) { return Err(Unpackable); }
      PackableIf(q);
      var reply, payload := server.Serve(Packed(RequestFields(q)), data, q);
      JudgedByService(size, q, data, old(server.NextFault()));
      var fault := Judge(reply, handle);
      return if fault.Some? then Err(fault.value) else Ok(payload);
    }

    /** One chunk written, as the callers below see it. */
    method WriteChunk(offset: nat, chunk: seq<byte>) returns (r: Result<seq<byte>, Error>)
      requires Valid() && offset + |chunk| <= size && |chunk| <= Chunk
      modifies this, server, server.disk
      ensures Valid() && handle == old(handle) + 1
      ensures r.Ok? <==> Passes(FaultAt(old(server.faults), 0), handle)
      ensures server.disk[..] == if Lands(FaultAt(old(server.faults), 0), handle) then Splice(old(server.disk[..]), offset, chunk) else old(server.disk[..])
      ensures r.Ok? ==> server.faults == FaultsAfter(old(server.faults), 1)
    {
      r := DoRequest(CmdWrite, offset, |chunk|, chunk);
      PackableIf(Request(CmdWrite, handle, offset, |chunk|));
      Powers();
      if handle < Power(8) { OnePasses(size, Request(CmdWrite, handle, offset, |chunk|), chunk, old(server.NextFault())); }
    }

    /** The first `written` bytes of `all` are at `offset`, and `copy` is where their requests have come. */
    ghost predicate Sending(before: seq<byte>, offset: nat, all: seq<byte>, copy: Copy, left: nat, cuts: seq<nat>, rest: nat, written: nat)
      reads this, server, server.disk
    {
      && Valid() && |before| == size && written == Sum(copy.passed) && Wrote(before, server.disk[..], offset, all, written)
      && OnTheWay(copy, server.faults, handle, left, cuts, rest)
    }

    /** One piece written, and what that makes of the copy. */
    method SendNext(offset: nat, written: nat, chunk: seq<byte>, ghost before: seq<byte>, ghost all: seq<byte>, ghost copy: Copy,
                    ghost left: nat, ghost cuts: seq<nat>, ghost rest: nat)
      returns (r: Result<nat, Error>, ghost reached: nat, ghost went: Copy)
      requires Sending(before, offset, all, copy, left, cuts, rest, written) && |chunk| == Piece(Min(Chunk, rest), cuts, left) > 0
      requires written + |chunk| <= |all| && chunk == all[written..written + |chunk|] && offset + written + |chunk| <= size
      modifies this, server, server.disk
      ensures Valid() && Wrote(before, server.disk[..], offset, all, reached) && went == copy.(passed := went.passed)
      ensures r.Err? ==> Copied(copy.faults, copy.handle, handle, copy.pieces, false, reached)
      ensures r.Ok? ==> reached == written + |chunk|
      ensures r.Ok? ==> Sending(before, offset, all, went, left - |chunk|, Tail(cuts), rest - |chunk|, written + |chunk|)
    {
      went := NextCopy(copy, server.faults, handle, left, cuts, rest, |chunk|);
      r, reached := SendPiece(offset, written, chunk, before, all);
    }

    /** One piece across, or not. */
    method SendPiece(offset: nat, written: nat, chunk: seq<byte>, ghost before: seq<byte>, ghost all: seq<byte>)
      returns (r: Result<nat, Error>, ghost reached: nat)
      requires Valid() && |chunk| <= Chunk && offset + written + |chunk| <= size == |before| && written + |chunk| <= |all|
      requires chunk == all[written..written + |chunk|] && Wrote(before, server.disk[..], offset, all, written)
      modifies this, server, server.disk
      ensures Valid() && handle == old(handle) + 1 && Wrote(before, server.disk[..], offset, all, reached)
      ensures r.Ok? <==> Passes(FaultAt(old(server.faults), 0), handle)
      ensures reached == written + if Lands(FaultAt(old(server.faults), 0), handle) then |chunk| else 0
      ensures r.Ok? ==> reached == written + |chunk| && server.faults == FaultsAfter(old(server.faults), 1)
    {
      ghost var mid, next, fault := server.disk[..], written + |chunk|, FaultAt(server.faults, 0);
      var sent := WriteChunk(offset + written, chunk);
      PassesLands(fault, handle);
      reached := if Lands(fault, handle) then next else written;
      if Lands(fault, handle) {
        assert server.disk[..] == Splice(mid, offset + written, all[written..next]);
        WroteMore(before, mid, server.disk[..], offset, all, written, next);
      }
      r := if sent.Ok? then Ok(|chunk|) else Err(sent.error);
    }

    /** The next chunk of a buffer. */
    method SendChunk(offset: nat, done: nat, data: seq<byte>, ghost before: seq<byte>, ghost copy: Copy)
      returns (r: Result<nat, Error>, ghost reached: nat, ghost went: Copy)
      requires done < |data| && offset + |data| <= size && Sending(before, offset, data, copy, |data| - done, [], |data| - done, done)
      modifies this, server, server.disk
      ensures Valid() && Wrote(before, server.disk[..], offset, data, reached) && went == copy.(passed := went.passed)
      ensures r.Err? ==> Copied(copy.faults, copy.handle, handle, copy.pieces, false, reached)
      ensures r.Ok? ==> done < r.value == reached <= |data| && Sending(before, offset, data, went, |data| - reached, [], |data| - reached, reached)
    {
      var next := Min(done + Chunk, |data|);
      r, reached, went := SendNext(offset, done, data[done..next], before, data, copy, |data| - done, [], |data| - done);
      if r.Ok? { r := Ok(next); }
    }

    /** The whole buffer, a chunk at a time. It returns exactly when every chunk's request passes, and then
        the device is what one splice of the buffer makes of it; otherwise it stops at the first that does
        not, and the device is what a splice of the buffer up to there does. */
    method WriteAt(offset: nat, data: seq<byte>) returns (r: Result<nat, Error>, ghost reached: nat)
      requires Valid()
      modifies this, server, server.disk
      ensures Valid()
      ensures offset + |data| > size ==> r == Err(Refused) && server.disk[..] == old(server.disk[..]) && handle == old(handle)
      ensures offset + |data| <= size ==>
        && Wrote(old(server.disk[..]), server.disk[..], offset, data, reached)
        && Copied(old(server.faults), old(handle), handle, Chunks(|data|), r.Ok?, reached)
        && (r.Ok? ==> r.value == reached == |data|)
    {
      reached := 0;
      if offset + |data| > size { return Err(Refused), 0; }
      var done := 0;
      ghost var before, copy := server.disk[..], Copy(server.faults, handle, Chunks(|data|), []);
      FreshCopy(server.faults, handle, |data|, [], |data|);
      while done < |data|
        invariant done == reached <= |data| && Sending(before, offset, data, copy, |data| - done, [], |data| - done, done)
        invariant copy == Copy(old(server.faults), old(handle), Chunks(|data|), copy.passed)
        decreases |data| - done
      {
        r, reached, copy := SendChunk(offset, done, data, before, copy);
        if r.Err? { return Err(r.error), reached; }
        done := r.value;
      }
      ghost var end := NextCopy(copy, server.faults, handle, 0, [], 0, 0);
      return Ok(done), reached;
    }

    /** The bytes at `offset`, a chunk at a time: returned exactly when they are there and every request
        passes. */
    method Read(offset: nat, length: nat) returns (r: Result<seq<byte>, Error>)
      requires Valid()
      modifies this, server, server.disk
      ensures Valid() && server.disk[..] == old(server.disk[..])
      ensures r.Ok? <==> offset + length <= size && AllPass(old(server.faults), old(handle), RequestsFor(length))
      ensures r.Ok? ==> r.value == server.disk[offset..offset + length]
    {
      if length <= Chunk {
        r := ReadChunk(offset, length);
        return;
      }
      var out: seq<byte> := [];
      var done := 0;
      ghost var disk, copy := server.disk[..], Copy(server.faults, handle, Chunks(length), []);
      FreshCopy(server.faults, handle, length, [], length);
      while done < length
        invariant Valid() && done <= length && server.disk[..] == disk == old(server.disk[..]) && Gathered(disk, offset, done, out)
        invariant copy == Copy(old(server.faults), old(handle), Chunks(length), copy.passed)
        invariant OnTheWay(copy, server.faults, handle, length - done, [], length - done)
        decreases length - done
      {
        var want := Min(Chunk, length - done);
        var part;
        part, copy := ReadNext(offset, done, want, length, copy);
        if part.Err? { return part; }
        GatherMore(disk, offset, done, out, want);
        out := out + part.value;
        done := done + want;
      }
      ghost var end := NextCopy(copy, server.faults, handle, 0, [], 0, 0);
      return Ok(out);
    }

    /** The next chunk of a long read. */
    method ReadNext(offset: nat, done: nat, want: nat, ghost length: nat, ghost copy: Copy) returns (r: Result<seq<byte>, Error>, ghost went: Copy)
      requires Valid() && done < length && want == Min(Chunk, length - done)
      requires OnTheWay(copy, server.faults, handle, length - done, [], length - done)
      modifies this, server, server.disk
      ensures Valid() && server.disk[..] == old(server.disk[..]) && went == copy.(passed := went.passed)
      ensures r.Ok? ==> offset + done + want <= size && r.value == server.disk[offset + done..offset + done + want]
      ensures r.Ok? ==> OnTheWay(went, server.faults, handle, length - done - want, [], length - done - want)
      ensures r.Err? ==> offset + length > size || !AllPass(copy.faults, copy.handle, |copy.pieces|)
    {
      went := NextCopy(copy, server.faults, handle, length - done, [], length - done, want);
      r := ReadChunk(offset + done, want);
    }

    method ReadChunk(offset: nat, want: nat) returns (r: Result<seq<byte>, Error>)
      requires Valid() && want <= Chunk
      modifies this, server, server.disk
      ensures Valid() && handle == old(handle) + 1 && server.disk[..] == old(server.disk[..])
      ensures r.Ok? <==> offset + want <= size && Passes(FaultAt(old(server.faults), 0), handle)
      ensures r.Ok? ==> r.value == server.disk[offset..offset + want] && server.faults == FaultsAfter(old(server.faults), 1)
    {
      r := DoRequest(CmdRead, offset, want, []);
      PackableIf(Request(CmdRead, handle, offset, want));
      Powers();
      if handle < Power(8) && offset + want <= size { OnePasses(size, Request(CmdRead, handle, offset, want), [], old(server.NextFault())); }
    }

    /** Copies from the stream, however short its reads: exactly the bytes delivered are at 0 up to the
        count returned, and nothing beyond it has changed. It returns exactly when the request for each
        piece passes; otherwise it stops at the first that does not. */
    method WriteStream(stream: Stream, total: nat) returns (r: Result<nat, Error>, ghost reached: nat)
      requires Valid() && stream.pos <= |stream.data|
      modifies this, server, server.disk, stream
      ensures Valid()
      ensures total > size ==> r == Err(Refused) && server.disk[..] == old(server.disk[..]) && stream.pos == old(stream.pos)
      ensures total <= size ==>
        && Wrote(old(server.disk[..]), server.disk[..], 0, stream.data[old(stream.pos)..], reached)
        && Copied(old(server.faults), old(handle), handle, Delivery(|stream.data| - old(stream.pos), old(stream.cuts), total), r.Ok?, reached)
        && (r.Ok? ==> r.value == reached)
    {
      reached := 0;
      if total > size { return Err(Refused), 0; }
      var written := 0;
      ghost var before, all := server.disk[..], stream.data[stream.pos..];
      ghost var copy := Copy(server.faults, handle, Delivery(|stream.data| - stream.pos, stream.cuts, total), []);
      FreshCopy(server.faults, handle, |stream.data| - stream.pos, stream.cuts, total);
      while written < total
        invariant reached == written <= total && Copying(stream, before, all, copy, written, total)
        invariant copy.faults == old(server.faults) && copy.handle == old(handle)
        invariant copy.pieces == Delivery(|stream.data| - old(stream.pos), old(stream.cuts), total)
        decreases total - written
      {
        var n;
        n, r, reached, copy := CopyNext(stream, written, total, before, all, copy);
        if n == 0 || r.Err? { return if n == 0 then Ok(written) else r, reached; }
        written := written + n;
      }
      ghost var end := NextCopy(copy, server.faults, handle, |stream.data| - stream.pos, stream.cuts, 0, 0);
      return Ok(written), reached;
    }

    /** A copy under way, with what is left of the stream still to come. */
    ghost predicate Copying(stream: Stream, before: seq<byte>, all: seq<byte>, copy: Copy, written: nat, total: nat)
      reads this, server, server.disk, stream
    {
      && written <= total <= size && stream.pos <= |stream.data| && written <= |all| && all[written..] == stream.data[stream.pos..]
      && Sending(before, 0, all, copy, |stream.data| - stream.pos, stream.cuts, total - written, written)
    }

    /** The next piece of a copy: nothing, or one request. */
    method CopyNext(stream: Stream, written: nat, total: nat, ghost before: seq<byte>, ghost all: seq<byte>, ghost copy: Copy)
      returns (n: nat, r: Result<nat, Error>, ghost reached: nat, ghost went: Copy)
      requires written < total && Copying(stream, before, all, copy, written, total)
      modifies this, server, server.disk, stream
      ensures Valid() && Wrote(before, server.disk[..], 0, all, reached) && went == copy.(passed := went.passed)
      ensures n == 0 || r.Err? ==> Copied(copy.faults, copy.handle, handle, copy.pieces, n == 0, reached)
      ensures n == 0 ==> reached == written
      ensures n > 0 && r.Ok? ==> reached == written + n <= total && Copying(stream, before, all, went, written + n, total)
    {
      ghost var data, left, cuts, rest, pos := stream.data, |stream.data| - stream.pos, stream.cuts, total - written, stream.pos;
      var chunk := stream.Read(Min(Chunk, total - written));
      n := |chunk|;
      SliceOf(all, data, written, pos, n);
      if n == 0 {
        ghost var end := NextCopy(copy, server.faults, handle, left, cuts, rest, 0);
        return 0, Ok(0), written, copy;
      }
      r, reached, went := SendNext(0, written, chunk, before, all, copy, left, cuts, rest);
      assert stream.pos == pos + n && stream.cuts == Tail(cuts) && rest - n == total - (written + n);
    }
  }

  lemma SliceOf(all: seq<byte>, data: seq<byte>, a: nat, b: nat, n: nat)
    requires a <= |all| && b + n <= |data| && all[a..] == data[b..]
    ensures a + n <= |all| && all[a..a + n] == data[b..b + n] && all[a + n..] == data[b + n..]
  {
    assert all[a..][..n] == data[b..][..n] && all[a..][n..] == data[b..][n..];
  }

  lemma PassesLands(fault: Option<Fault>, handle: nat)
    ensures Passes(fault, handle) ==> Lands(fault, handle)
  {
  }

  /** The first `done` bytes from `offset` on. */
  predicate Gathered(disk: seq<byte>, offset: nat, done: nat, out: seq<byte>) {
    if done == 0 then out == [] else offset + done <= |disk| && out == disk[offset..offset + done]
  }

  lemma GatherMore(disk: seq<byte>, offset: nat, done: nat, out: seq<byte>, want: nat)
    requires Gathered(disk, offset, done, out) && want > 0 && offset + done + want <= |disk|
    ensures Gathered(disk, offset, done + want, out + disk[offset + done..offset + done + want])
  {
  }

  /** What comes of copying these pieces: each request passes, or it stops at the first that does not. */
  predicate Copied(faults: seq<Option<Fault>>, handle: nat, after: nat, pieces: seq<nat>, ok: bool, reached: nat) {
    if ok then AllPass(faults, handle, |pieces|) && after == handle + |pieces| && reached == Sum(pieces)
    else handle < after <= handle + |pieces| && StopsAfter(faults, handle, after - handle - 1) && reached == CopiedAt(faults, handle, after - handle - 1, pieces)
  }

  /** So it comes to the end exactly when each of its requests passes. */
  lemma CopiedExactly(faults: seq<Option<Fault>>, handle: nat, after: nat, pieces: seq<nat>, ok: bool, reached: nat)
    requires Copied(faults, handle, after, pieces, ok, reached)
    ensures ok <==> AllPass(faults, handle, |pieces|)
  {
    if !ok { assert !Passes(FaultAt(faults, after - handle - 1), handle + 1 + (after - handle - 1)); }
  }

  /** A copy under way: where its requests began, the pieces it will get, and those it has got across. */
  datatype Copy = Copy(faults: seq<Option<Fault>>, handle: nat, pieces: seq<nat>, passed: seq<nat>)

  predicate OnTheWay(c: Copy, faults: seq<Option<Fault>>, handle: nat, left: nat, cuts: seq<nat>, rest: nat) {
    && handle == c.handle + |c.passed| && AllPass(c.faults, c.handle, |c.passed|) && faults == FaultsAfter(c.faults, |c.passed|)
    && c.pieces == c.passed + Delivery(left, cuts, rest)
  }

  lemma DeliveryNext(left: nat, cuts: seq<nat>, rest: nat)
    ensures var p := Piece(Min(Chunk, rest), cuts, left);
      Delivery(left, cuts, rest) == if p == 0 then [] else [p] + Delivery(left - p, Tail(cuts), rest - p)
  {
  }

  lemma SumLast(ps: seq<nat>, p: nat)
    ensures Sum(ps + [p]) == Sum(ps) + p
  {
    assert (ps + [p])[..|ps|] == ps;
  }

  /** What the next piece, of `p` bytes, makes of a copy: its end, a stop, or one more piece across. */
  lemma NextCopy(c: Copy, faults: seq<Option<Fault>>, handle: nat, left: nat, cuts: seq<nat>, rest: nat, p: nat) returns (went: Copy)
    requires OnTheWay(c, faults, handle, left, cuts, rest) && p == Piece(Min(Chunk, rest), cuts, left)
    ensures went == c.(passed := went.passed)
    ensures p == 0 ==> Copied(c.faults, c.handle, handle, c.pieces, true, Sum(c.passed))
    ensures p > 0 && !Passes(FaultAt(faults, 0), handle + 1) ==>
      Copied(c.faults, c.handle, handle + 1, c.pieces, false, Sum(c.passed) + if Lands(FaultAt(faults, 0), handle + 1) then p else 0)
    ensures p > 0 && Passes(FaultAt(faults, 0), handle + 1) ==>
      Sum(went.passed) == Sum(c.passed) + p && OnTheWay(went, FaultsAfter(faults, 1), handle + 1, left - p, Tail(cuts), rest - p)
  {
    went := c.(passed := c.passed + [p]);
    if p == 0 { EndsHere(c, faults, handle, left, cuts, rest); }
    else if Passes(FaultAt(faults, 0), handle + 1) { GoesOn(c, faults, handle, left, cuts, rest); }
    else { StopsHere(c, faults, handle, left, cuts, rest); }
  }

  lemma FreshCopy(faults: seq<Option<Fault>>, handle: nat, left: nat, cuts: seq<nat>, rest: nat)
    ensures OnTheWay(Copy(faults, handle, Delivery(left, cuts, rest), []), faults, handle, left, cuts, rest)
  {
    assert [] + Delivery(left, cuts, rest) == Delivery(left, cuts, rest);
  }

  lemma EndsHere(c: Copy, faults: seq<Option<Fault>>, handle: nat, left: nat, cuts: seq<nat>, rest: nat)
    requires OnTheWay(c, faults, handle, left, cuts, rest) && Piece(Min(Chunk, rest), cuts, left) == 0
    ensures Copied(c.faults, c.handle, handle, c.pieces, true, Sum(c.passed))
  {
    DeliveryNext(left, cuts, rest);
    assert c.pieces == c.passed;
  }

  lemma StopsHere(c: Copy, faults: seq<Option<Fault>>, handle: nat, left: nat, cuts: seq<nat>, rest: nat)
    requires OnTheWay(c, faults, handle, left, cuts, rest) && Piece(Min(Chunk, rest), cuts, left) > 0
    requires !Passes(FaultAt(faults, 0), handle + 1)
    ensures Copied(c.faults, c.handle, handle + 1, c.pieces, false,
                   Sum(c.passed) + if Lands(FaultAt(faults, 0), handle + 1) then Piece(Min(Chunk, rest), cuts, left) else 0)
  {
    DeliveryNext(left, cuts, rest);
    FaultFollows(c.faults, |c.passed|);
    assert c.pieces[..|c.passed|] == c.passed;
  }

  lemma GoesOn(c: Copy, faults: seq<Option<Fault>>, handle: nat, left: nat, cuts: seq<nat>, rest: nat)
    requires OnTheWay(c, faults, handle, left, cuts, rest) && Piece(Min(Chunk, rest), cuts, left) > 0
    requires Passes(FaultAt(faults, 0), handle + 1)
    ensures var p := Piece(Min(Chunk, rest), cuts, left);
      && OnTheWay(c.(passed := c.passed + [p]), FaultsAfter(faults, 1), handle + 1, left - p, Tail(cuts), rest - p)
      && Sum(c.passed + [p]) == Sum(c.passed) + p
  {
    var p := Piece(Min(Chunk, rest), cuts, left);
    DeliveryNext(left, cuts, rest);
    FaultFollows(c.faults, |c.passed|);
    SumLast(c.passed, p);
    Reassociate(c.passed, p, Delivery(left - p, Tail(cuts), rest - p));
    MorePass(c.faults, c.handle, |c.passed|);
  }

  lemma Reassociate(a: seq<nat>, p: nat, b: seq<nat>)
    ensures a + ([p] + b) == (a + [p]) + b
  {
  }

  lemma MorePass(faults: seq<Option<Fault>>, handle: nat, n: nat)
    requires AllPass(faults, handle, n) && Passes(FaultAt(faults, n), handle + 1 + n)
    ensures AllPass(faults, handle, n + 1)
  {
  }

  lemma FaultFollows(faults: seq<Option<Fault>>, k: nat)
    ensures FaultAt(FaultsAfter(faults, k), 0) == FaultAt(faults, k) && FaultsAfter(FaultsAfter(faults, k), 1) == FaultsAfter(faults, k + 1)
  {
  }

  function CopiedAt(faults: seq<Option<Fault>>, handle: nat, k: nat, pieces: seq<nat>): nat
    requires k < |pieces|
  {
    Sum(pieces[..k]) + if Lands(FaultAt(faults, k), handle + 1 + k) then pieces[k] else 0
  }

  /** A short read is one request, even of nothing. */
  function RequestsFor(length: nat): nat { if length <= Chunk then 1 else |Chunks(length)| }
}
