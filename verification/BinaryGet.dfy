/** Multi-key gets of the binary protocol: how values find their keys (src/memcache_binary_protocol.c). */
module BinaryGet {
  import opened Basics
  import opened Wrappers
  import opened Sequences
  import Streams

  const REQUEST_MAGIC: Byte := 0x80
  const RESPONSE_MAGIC: Byte := 0x81
  const OP_GET: Byte := 0x00
  const OP_GETQ: Byte := 0x09
  const OP_NOOP: Byte := 0x0a
  const HEADER_SIZE := 24
  const EXTRAS_SIZE := 4

  // ---------------------------------------------------------------------------------------------------------
  // Network byte order

  /** The low `k` bytes of `n`, the highest first. */
  function Big(n: nat, k: nat): (s: seq<Byte>)
    ensures |s| == k
  {
    if k == 0 then [] else Big(n / 256, k - 1) + [n % 256]
  }

  function FromBig(s: seq<Byte>): nat {
    if s == [] then 0 else 256 * FromBig(s[..|s| - 1]) + s[|s| - 1]
  }

  function Pow256(k: nat): nat { if k == 0 then 1 else 256 * Pow256(k - 1) }

  lemma {:induction false} BigRoundTrip(n: nat, k: nat)
    requires n < Pow256(k)
    ensures FromBig(Big(n, k)) == n
    decreases k
  {
    if k > 0 {
      BigRoundTrip(n / 256, k - 1);
      assert Big(n, k)[..k - 1] == Big(n / 256, k - 1);
    }
  }

  lemma Powers()
    ensures Pow256(2) == 0x1_0000 && Pow256(4) == 0x1_0000_0000 && Pow256(8) == 0x1_0000_0000_0000_0000
  {
    assert Pow256(2) == 0x1_0000;
    assert Pow256(4) == 0x1_0000_0000;
    assert Pow256(6) == 0x1_0000_0000_0000;
  }

  // ---------------------------------------------------------------------------------------------------------
  // The request

  /** A key's identity: the address of the caller's key value. */
  type KeyPointer = nat

  /** mmc_pack_header */
  function PackHeader(opcode: Byte, reqid: nat, keyLength: nat, extrasLength: Byte, length: nat): seq<Byte> {
    [REQUEST_MAGIC, opcode] + Big(keyLength, 2) + [extrasLength, 0] + Big(0, 2)
    + Big(keyLength + extrasLength + length, 4) + Big(reqid, 4) + Big(0, 8)
  }

  /** A key as the caller passes it: its identity and its bytes. */
  datatype Key = Key(pointer: KeyPointer, bytes: seq<Byte>)

  /** The remembered pointers after appending `zs`: a pointer that is there already is not added again. */
  function Remembered(zs: seq<Key>): seq<KeyPointer> {
    if zs == [] then [] else PushUnique(Remembered(zs[..|zs| - 1]), zs[|zs| - 1].pointer)
  }

  /** The reqid (the protocol's opaque field) under which the k-th key is sent. */
  function ReqidOf(zs: seq<Key>, k: nat): nat
    requires k < |zs|
  {
    |Remembered(zs[..k])|
  }

  function GetRequest(zs: seq<Key>): seq<Byte> {
    if zs == [] then []
    else
      var n := |zs| - 1;
      GetRequest(zs[..n]) + PackHeader(OP_GETQ, ReqidOf(zs, n), |zs[n].bytes|, 0, 0) + zs[n].bytes
  }

  /** The whole request: the quiet gets and the NOOP that asks for the answers. */
  function WholeRequest(zs: seq<Key>): seq<Byte> {
    GetRequest(zs) + PackHeader(OP_NOOP, |Remembered(zs)|, 0, 0, 0)
  }

  class GetBuilder {
    var sendbuf: seq<Byte>
    var keys: seq<KeyPointer>
    ghost var appended: seq<Key>

    ghost predicate Valid()
      reads this
    {
      sendbuf == GetRequest(appended) && keys == Remembered(appended)
    }

    /** A new or reset request, at mmc_binary_begin_get. */
    constructor ()
      ensures Valid() && appended == []
    {
      sendbuf, keys, appended := [], [], [];
    }

    /** mmc_binary_append_get */
    method AppendGet(z: Key)
      requires Valid()
      modifies this
      ensures Valid() && appended == old(appended) + [z]
    {
      assert (appended + [z])[..|appended|] == appended;
      sendbuf := sendbuf + PackHeader(OP_GETQ, |keys|, |z.bytes|, 0, 0) + z.bytes;
      keys := PushUnique(keys, z.pointer);
      appended := appended + [z];
    }

    /** mmc_binary_end_get: a server that reads the finished request finds a quiet get for each appended key, in order,
        under the reqid that stands for it, and the NOOP. */
    method EndGet()
      requires Valid()
      modifies `sendbuf
      ensures sendbuf == WholeRequest(appended)
      ensures Sizable(appended) ==> ReadRequest(sendbuf) == Some((GetsFrom(appended, 0), |keys|, []))
    {
      sendbuf := sendbuf + PackHeader(OP_NOOP, |keys|, 0, 0, 0);
      if Sizable(appended) {
        RequestRoundTrip(appended, []);
        assert sendbuf + [] == sendbuf;
      }
    }
  }

  // ---------------------------------------------------------------------------------------------------------
  // A server reads the request

  datatype Get = Get(reqid: nat, key: seq<Byte>)

  /** Quiet gets up to a NOOP: the gets, the NOOP's reqid, and what follows. None for any other bytes. */
  function ReadRequest(s: seq<Byte>): Option<(seq<Get>, nat, seq<Byte>)>
    decreases |s|
  {
    if |s| < HEADER_SIZE || s[0] != REQUEST_MAGIC then None
    else
      var (keyLength, total, reqid) := (FromBig(s[2..4]), FromBig(s[8..12]), FromBig(s[12..16]));
      var rest := s[HEADER_SIZE..];
      if s[1] == OP_NOOP && total == 0 then Some(([], reqid, rest))
      else if s[1] != OP_GETQ || s[4] != 0 || total != keyLength || |rest| < total then None
      else
        match ReadRequest(rest[total..])
        case None => None
        case Some((gets, noop, left)) => Some(([Get(reqid, rest[..total])] + gets, noop, left))
  }

  /** Key lengths fit 16 bits and reqids 32. */
  ghost predicate Sizable(zs: seq<Key>) {
    |zs| < 0x1_0000_0000 && forall k :: 0 <= k < |zs| ==> |zs[k].bytes| < 0x1_0000
  }

  /** The gets for the keys from number `from` on. */
  function GetsFrom(zs: seq<Key>, from: nat): seq<Get>
    requires from <= |zs|
    decreases |zs| - from
  {
    if from == |zs| then [] else [Get(ReqidOf(zs, from), zs[from].bytes)] + GetsFrom(zs, from + 1)
  }

  /** The part of the request behind the first `from` keys. */
  function RequestFrom(zs: seq<Key>, from: nat): seq<Byte>
    requires from <= |zs|
    decreases |zs| - from
  {
    if from == |zs| then PackHeader(OP_NOOP, |Remembered(zs)|, 0, 0, 0)
    else PackHeader(OP_GETQ, ReqidOf(zs, from), |zs[from].bytes|, 0, 0) + zs[from].bytes + RequestFrom(zs, from + 1)
  }

  lemma {:induction false} RequestSplits(zs: seq<Key>, from: nat)
    requires from <= |zs|
    ensures GetRequest(zs[..from]) + RequestFrom(zs, from) == WholeRequest(zs)
    decreases |zs| - from
  {
    hide PackHeader, Remembered, ReqidOf;
    if from == |zs| {
      assert zs[..from] == zs;
    } else {
      RequestSplits(zs, from + 1);
      RequestGrows(zs, from);
      var (a, b, c) := (GetRequest(zs[..from]), PackHeader(OP_GETQ, ReqidOf(zs, from), |zs[from].bytes|, 0, 0),
                        zs[from].bytes);
      var d := RequestFrom(zs, from + 1);
      Regroup(a, b, c, d);
    }
  }

  lemma RequestGrows(zs: seq<Key>, from: nat)
    requires from < |zs|
    ensures GetRequest(zs[..from + 1])
            == GetRequest(zs[..from]) + PackHeader(OP_GETQ, ReqidOf(zs, from), |zs[from].bytes|, 0, 0) + zs[from].bytes
  {
    assert zs[..from + 1][..from] == zs[..from];
    hide PackHeader, Remembered;
  }

  lemma Regroup<T>(a: seq<T>, b: seq<T>, c: seq<T>, d: seq<T>)
    ensures a + (b + c + d) == a + b + c + d
  {
  }

  lemma PackedFields(opcode: Byte, reqid: nat, keyLength: nat)
    requires reqid < 0x1_0000_0000 && keyLength < 0x1_0000
    ensures var h := PackHeader(opcode, reqid, keyLength, 0, 0);
            && |h| == HEADER_SIZE && h[0] == REQUEST_MAGIC && h[1] == opcode && h[4] == 0
            && FromBig(h[2..4]) == keyLength && FromBig(h[8..12]) == keyLength && FromBig(h[12..16]) == reqid
  {
    assert FromBig(Big(keyLength, 2)) == keyLength by { Powers(); BigRoundTrip(keyLength, 2); }
    assert FromBig(Big(keyLength, 4)) == keyLength by { Powers(); BigRoundTrip(keyLength, 4); }
    assert FromBig(Big(reqid, 4)) == reqid by { Powers(); BigRoundTrip(reqid, 4); }
    PackSlices(opcode, reqid, keyLength);
    hide Big, FromBig, PackHeader;
  }

  lemma Packed<T>(a: seq<T>, b: seq<T>, c: seq<T>, d: seq<T>, e: seq<T>, f: seq<T>)
    requires |a| == 2 && |b| == 2 && |c| == 4 && |d| == 4 && |e| == 4 && |f| == 8
    ensures var s := a + b + c + d + e + f;
            |s| == 24 && s[0] == a[0] && s[1] == a[1] && s[4] == c[0]
            && s[2..4] == b && s[4..8] == c && s[8..12] == d && s[12..16] == e && s[16..] == f
  {
  }

  /** The bytes of a request's header, the numbers with their highest byte first. */
  lemma HeaderBytes(opcode: Byte, reqid: nat, keyLength: nat)
    requires reqid < 0x1_0000_0000 && keyLength < 0x1_0000
    ensures var h := PackHeader(opcode, reqid, keyLength, 0, 0);
            && |h| == 24 && h[0] == 0x80 && h[1] == opcode && Two(h[2], h[3]) == keyLength
            && h[4] == h[5] == h[6] == h[7] == 0 && h[8] == h[9] == 0 && Two(h[10], h[11]) == keyLength
            && 0x1_0000 * Two(h[12], h[13]) + Two(h[14], h[15]) == reqid
            && forall i :: 16 <= i < 24 ==> h[i] == 0
    ensures OP_GET == 0 && OP_GETQ == 0x09 && OP_NOOP == 0x0a
  {
    PackSlices(opcode, reqid, keyLength);
    BigTwo(keyLength);
    BigZeros(2);
    BigZeros(8);
    BigFour(keyLength);
    BigFour(reqid);
    hide Big, PackHeader;
    FromSlices(PackHeader(opcode, reqid, keyLength, 0, 0), Big(keyLength, 2), [0, 0] + Big(0, 2), Big(keyLength, 4),
               Big(reqid, 4), Big(0, 8));
  }

  lemma PackSlices(opcode: Byte, reqid: nat, keyLength: nat)
    ensures var h := PackHeader(opcode, reqid, keyLength, 0, 0);
            && |h| == 24 && h[0] == 0x80 && h[1] == opcode && h[2..4] == Big(keyLength, 2)
            && h[4..8] == [0, 0] + Big(0, 2) && h[8..12] == Big(keyLength, 4) && h[12..16] == Big(reqid, 4)
            && h[16..] == Big(0, 8)
  {
    hide Big;
    Packed([REQUEST_MAGIC, opcode], Big(keyLength, 2), [0, 0] + Big(0, 2), Big(keyLength, 4), Big(reqid, 4), Big(0, 8));
    assert PackHeader(opcode, reqid, keyLength, 0, 0)
        == [REQUEST_MAGIC, opcode] + Big(keyLength, 2) + ([0, 0] + Big(0, 2)) + Big(keyLength, 4) + Big(reqid, 4)
          + Big(0, 8);
  }

  lemma FromSlices(h: seq<Byte>, b: seq<Byte>, c: seq<Byte>, d: seq<Byte>, e: seq<Byte>, f: seq<Byte>)
    requires |h| == 24 && h[2..4] == b && h[4..8] == c && h[8..12] == d && h[12..16] == e && h[16..] == f
    ensures h[2] == b[0] && h[3] == b[1] && h[4] == c[0] && h[5] == c[1] && h[6] == c[2] && h[7] == c[3]
    ensures h[8] == d[0] && h[9] == d[1] && h[10] == d[2] && h[11] == d[3]
    ensures h[12] == e[0] && h[13] == e[1] && h[14] == e[2] && h[15] == e[3]
    ensures forall i :: 16 <= i < 24 ==> h[i] == f[i - 16]
  {
  }

  function Two(high: Byte, low: Byte): nat { high as int * 0x100 + low as int }

  lemma BigTwo(n: nat)
    requires n < 0x1_0000
    ensures Two(Big(n, 2)[0], Big(n, 2)[1]) == n
  {
    assert Big(n / 256, 1)[0] == n / 256;
  }

  lemma BigFour(n: nat)
    requires n < 0x1_0000_0000
    ensures var s := Big(n, 4); 0x1_0000 * Two(s[0], s[1]) + Two(s[2], s[3]) == n
    ensures n < 0x1_0000 ==> Big(n, 4)[0] == 0 && Big(n, 4)[1] == 0
  {
    hide *;
    var a := n / 256;
    var b := a / 256;
    Quotients(n, a, b);
    BigTwo(b);
    var (c: Byte, d: Byte) := (a % 256, n % 256);
    LastTwo(n, a, b, c, d);
    FourBytes(n, a, b, Big(b, 2), c, d);
  }

  lemma LastTwo(n: nat, a: nat, b: nat, c: Byte, d: Byte)
    requires a == n / 256 && b == a / 256 && c == a % 256 && d == n % 256
    ensures Big(n, 4) == Big(b, 2) + [c] + [d]
  {
    assert Big(a, 3) == Big(b, 2) + [c];
  }

  lemma Quotients(n: nat, a: nat, b: nat)
    requires n < 0x1_0000_0000 && a == n / 256 && b == a / 256
    ensures n == 256 * a + n % 256 && a == 256 * b + a % 256 && b < 0x1_0000 && (n < 0x1_0000 ==> b == 0)
  {
  }

  lemma FourBytes(n: nat, a: nat, b: nat, s: seq<Byte>, c: Byte, d: Byte)
    requires |s| == 2 && Two(s[0], s[1]) == b && n == 256 * a + d && a == 256 * b + c
    ensures var t := s + [c] + [d]; 0x1_0000 * Two(t[0], t[1]) + Two(t[2], t[3]) == n
    ensures b == 0 ==> s[0] == 0 && s[1] == 0
  {
  }

  lemma {:induction false} BigZeros(k: nat)
    ensures forall i :: 0 <= i < k ==> Big(0, k)[i] == 0
  {
    if k > 0 { BigZeros(k - 1); }
  }

  lemma ReqidsSmall(zs: seq<Key>)
    ensures |Remembered(zs)| <= |zs|
    decreases |zs|
  {
    if zs != [] { ReqidsSmall(zs[..|zs| - 1]); }
  }

  lemma {:induction false} ReadsFrom(zs: seq<Key>, from: nat, after: seq<Byte>)
    requires Sizable(zs) && from <= |zs|
    ensures ReadRequest(RequestFrom(zs, from) + after) == Some((GetsFrom(zs, from), |Remembered(zs)|, after))
    decreases |zs| - from
  {
    hide ReadRequest, PackHeader, Remembered;
    if from == |zs| {
      ReqidsSmall(zs);
      ReadNoop(|Remembered(zs)|, after);
    } else {
      ReqidsSmall(zs[..from]);
      ReadsFrom(zs, from + 1, after);
      ReadsOne(zs, from, after);
    }
  }

  lemma ReadsOne(zs: seq<Key>, from: nat, after: seq<Byte>)
    requires from < |zs| && |zs[from].bytes| < 0x1_0000 && ReqidOf(zs, from) < 0x1_0000_0000
    requires ReadRequest(RequestFrom(zs, from + 1) + after) == Some((GetsFrom(zs, from + 1), |Remembered(zs)|, after))
    ensures ReadRequest(RequestFrom(zs, from) + after) == Some((GetsFrom(zs, from), |Remembered(zs)|, after))
  {
    var (reqid, key, rest) := (ReqidOf(zs, from), zs[from].bytes, RequestFrom(zs, from + 1));
    ReadGet(reqid, key, rest + after);
    hide ReadRequest, PackHeader, Remembered, ReqidOf;
    assert RequestFrom(zs, from) == PackHeader(OP_GETQ, reqid, |key|, 0, 0) + key + rest;
    hide RequestFrom;
    Associative(PackHeader(OP_GETQ, reqid, |key|, 0, 0) + key, rest, after);
  }

  lemma ReadNoop(reqid: nat, after: seq<Byte>)
    requires reqid < 0x1_0000_0000
    ensures ReadRequest(PackHeader(OP_NOOP, reqid, 0, 0, 0) + after) == Some(([], reqid, after))
  {
    PackedFields(OP_NOOP, reqid, 0);
    hide PackHeader, FromBig;
    var h := PackHeader(OP_NOOP, reqid, 0, 0, 0);
    FieldsOf(h, after);
  }

  /** Fields of a header are found in a stream that starts with it. */
  lemma FieldsOf(h: seq<Byte>, after: seq<Byte>)
    requires |h| == HEADER_SIZE
    ensures var s := h + after;
            s[2..4] == h[2..4] && s[8..12] == h[8..12] && s[12..16] == h[12..16] && s[HEADER_SIZE..] == after
  {
  }

  lemma ReadGet(reqid: nat, key: seq<Byte>, rest: seq<Byte>)
    requires reqid < 0x1_0000_0000 && |key| < 0x1_0000
    ensures var s := PackHeader(OP_GETQ, reqid, |key|, 0, 0) + key + rest;
            ReadRequest(s) == match ReadRequest(rest)
                              case None => None
                              case Some((gets, noop, left)) => Some(([Get(reqid, key)] + gets, noop, left))
  {
    PackedFields(OP_GETQ, reqid, |key|);
    hide PackHeader, FromBig;
    var h := PackHeader(OP_GETQ, reqid, |key|, 0, 0);
    assert h + key + rest == h + (key + rest);
    FieldsOf(h, key + rest);
    assert (key + rest)[..|key|] == key && (key + rest)[|key|..] == rest;
  }

  /** What the client sends is what the server reads: each key once, in order, under its reqid, and the NOOP behind. */
  lemma RequestRoundTrip(zs: seq<Key>, after: seq<Byte>)
    requires Sizable(zs)
    ensures ReadRequest(WholeRequest(zs) + after) == Some((GetsFrom(zs, 0), |Remembered(zs)|, after))
  {
    RequestSplits(zs, 0);
    assert zs[..0] == [] && GetRequest([]) + RequestFrom(zs, 0) == RequestFrom(zs, 0);
    ReadsFrom(zs, 0, after);
  }

  ghost predicate DistinctPointers(zs: seq<Key>) {
    forall i, j :: 0 <= i < j < |zs| ==> zs[i].pointer != zs[j].pointer
  }

  /** The k-th key is found under the reqid it was sent with. */
  ghost predicate Matched(zs: seq<Key>, k: nat)
    requires k < |zs|
  {
    ReqidOf(zs, k) < |Remembered(zs)| && Remembered(zs)[ReqidOf(zs, k)] == zs[k].pointer
  }

  lemma {:induction false} RememberedAll(zs: seq<Key>)
    requires DistinctPointers(zs)
    ensures |Remembered(zs)| == |zs|
    ensures forall k :: 0 <= k < |zs| ==> Remembered(zs)[k] == zs[k].pointer
    decreases |zs|
  {
    if zs != [] {
      RememberedAll(zs[..|zs| - 1]);
    }
  }

  lemma {:induction false} RememberedPrefix(zs: seq<Key>, k: nat)
    requires k <= |zs|
    ensures Remembered(zs[..k]) <= Remembered(zs)
    decreases |zs| - k
  {
    if k == |zs| {
      assert zs[..k] == zs;
    } else {
      assert zs[..k + 1][..k] == zs[..k];
      RememberedPrefix(zs, k + 1);
    }
  }

  /** Exactly when reqids identify keys: every appended key is found under its own reqid iff no key pointer was
      appended twice. */
  lemma ReqidsExact(zs: seq<Key>)
    ensures (forall k :: 0 <= k < |zs| ==> Matched(zs, k)) <==> DistinctPointers(zs)
  {
    if DistinctPointers(zs) {
      forall k | 0 <= k < |zs| ensures Matched(zs, k) { KeyAt(zs, k); }
    } else {
      var i, j :| 0 <= i < j < |zs| && zs[i].pointer == zs[j].pointer;
      PointerTwice(zs, i, j);
    }
  }

  lemma KeyAt(zs: seq<Key>, k: nat)
    requires k < |zs| && DistinctPointers(zs)
    ensures ReqidOf(zs, k) == k < |Remembered(zs)| && Remembered(zs)[k] == zs[k].pointer
  {
    RememberedAll(zs);
    RememberedAll(zs[..k]);
  }

  lemma PointerRemembered(zs: seq<Key>, i: nat, j: nat)
    requires i < j <= |zs|
    ensures zs[i].pointer in Remembered(zs[..j])
  {
    RememberedPrefix(zs[..j], i + 1);
    assert zs[..j][..i + 1] == zs[..i + 1] && zs[..i + 1][..i] == zs[..i];
    assert zs[i].pointer in Remembered(zs[..i + 1]);
  }

  /** A pointer appended before keeps the reqid it has, so the next reqid is not its own. */
  lemma PointerTwice(zs: seq<Key>, i: nat, j: nat)
    requires i < j < |zs| && zs[i].pointer == zs[j].pointer
    ensures !Matched(zs, j)
  {
    var keys, before := Remembered(zs), Remembered(zs[..j]);
    RememberedPrefix(zs, j);
    PointerRemembered(zs, i, j);
    RememberedNoDuplicates(zs);
    hide Remembered;
    var m :| 0 <= m < |before| && before[m] == zs[i].pointer;
    assert keys[m] == before[m];
  }

  /** One key appended twice, and another: the reqid of the second is the third's, which is sent twice. */
  lemma KeyTwice(a: Key, b: Key)
    requires a.pointer != b.pointer
    ensures var zs := [a, a, b];
            Remembered(zs) == [a.pointer, b.pointer] && ReqidOf(zs, 1) == 1 == ReqidOf(zs, 2)
  {
    var zs := [a, a, b];
    assert zs[..2] == [a, a] && zs[..1] == [a] && zs[..0] == [] && [a, a][..1] == [a] && [a][..0] == [];
    var none: seq<KeyPointer> := [];
    assert Remembered([a]) == [a.pointer] by { assert Remembered([]) == none && none + [a.pointer] == [a.pointer]; }
  }

  lemma {:induction false} RememberedNoDuplicates(zs: seq<Key>)
    ensures NoDuplicates(Remembered(zs))
    decreases |zs|
  {
    if zs != [] { RememberedNoDuplicates(zs[..|zs| - 1]); }
  }

  // ---------------------------------------------------------------------------------------------------------
  // The reply, one byte at a time

  datatype Item = Item(key: KeyPointer, flags: nat, cas: nat, body: seq<Byte>)

  /** `Stray` is a value whose reqid lies outside the remembered keys, on which the code reads beyond its queue. */
  datatype Mode = Head | Extras | Body | ErrorBody | Done | Failed | Stray

  datatype Parser = Parser(
    mode: Mode,
    keys: seq<KeyPointer>,
    input: seq<Byte>,
    opcode: Byte,
    reqid: nat,
    length: nat,
    flags: nat,
    cas: nat,
    readbuf: seq<Byte>,
    items: seq<Item>)

  predicate Accepts(p: Parser) { p.mode.Head? || p.mode.Extras? || p.mode.Body? || p.mode.ErrorBody? }

  /** mmc_request_parse_response, once the 24 bytes are there. The response handler of a get answers DONE. */
  function EndOfHeader(p: Parser, h: seq<Byte>): Parser
    requires |h| == HEADER_SIZE
  {
    var p := p.(input := []);
    if h[0] != RESPONSE_MAGIC then p.(mode := Failed)
    else if h[1] == OP_NOOP then p.(mode := Done)
    else
      var status, total := FromBig(h[6..8]), FromBig(h[8..12]);
      var p := p.(opcode := h[1], reqid := FromBig(h[12..16]), length := total, cas := FromBig(h[16..24]),
                  readbuf := []);
      if total == 0 then p.(mode := Done)
      else if status != 0 then p.(mode := ErrorBody)
      else p.(mode := Extras, length := if total >= h[4] then total - h[4] else total)
  }

  /** mmc_request_read_value, once the body is there. */
  function EndOfBody(p: Parser, body: seq<Byte>): Parser {
    var p := p.(readbuf := []);
    if p.reqid >= |p.keys| then p.(mode := Stray)
    else
      p.(mode := if p.opcode == OP_GET then Done else Head,
         items := p.items + [Item(p.keys[p.reqid], p.flags, p.cas, body)])
  }

  /** mmc_request_parse_value, once the flags are there. An empty body is complete at once. */
  function EndOfExtras(p: Parser, x: seq<Byte>): Parser {
    var p := p.(input := [], flags := FromBig(x), mode := Body);
    if p.length == 0 then EndOfBody(p, []) else p
  }

  function Step(p: Parser, b: Byte): Parser {
    match p.mode
    case Head =>
      var h := p.input + [b];
      if |h| == HEADER_SIZE then EndOfHeader(p, h) else p.(input := h)
    case Extras =>
      var x := p.input + [b];
      if |x| == EXTRAS_SIZE then EndOfExtras(p, x) else p.(input := x)
    case Body =>
      var body := p.readbuf + [b];
      if |body| >= p.length then EndOfBody(p, body) else p.(readbuf := body)
    case ErrorBody =>
      var body := p.readbuf + [b];
      if |body| >= p.length then p.(mode := Done) else p.(readbuf := body)
    case _ => p
  }

  const REPLY: Streams.Machine<Parser, Byte> := Streams.Machine(Accepts, Step)

  function Run(p: Parser, s: seq<Byte>): (Parser, seq<Byte>) { Streams.Run(REPLY, p, s) }

  function Begin(keys: seq<KeyPointer>): Parser { Parser(Head, keys, [], 0, 0, 0, 0, 0, [], []) }

  // ---------------------------------------------------------------------------------------------------------
  // What a server sends

  datatype Entry = Entry(flags: nat, cas: nat, body: seq<Byte>)

  predicate Sendable(e: Entry) {
    e.flags < 0x1_0000_0000 && e.cas < 0x1_0000_0000_0000_0000 && EXTRAS_SIZE + |e.body| < 0x1_0000_0000
  }

  function ResponseHeader(opcode: Byte, extras: Byte, total: nat, reqid: nat, cas: nat): seq<Byte> {
    [RESPONSE_MAGIC, opcode] + Big(0, 2) + [extras, 0] + Big(0, 2) + Big(total, 4) + Big(reqid, 4) + Big(cas, 8)
  }

  function ValueResponse(opcode: Byte, reqid: nat, e: Entry): seq<Byte> {
    ResponseHeader(opcode, EXTRAS_SIZE, EXTRAS_SIZE + |e.body|, reqid, e.cas) + Big(e.flags, 4) + e.body
  }

  /** A quiet get that hit. */
  function HitResponse(reqid: nat, e: Entry): seq<Byte> { ValueResponse(OP_GETQ, reqid, e) }

  function NoopResponse(reqid: nat): seq<Byte> { ResponseHeader(OP_NOOP, 0, 0, reqid, 0) }

  /** The server answers the quiet gets that hit, in order, and then the NOOP. */
  function Answers(gets: seq<Get>, noop: nat, store: map<seq<Byte>, Entry>): seq<Byte>
    decreases |gets|
  {
    if gets == [] then NoopResponse(noop)
    else
      (if gets[0].key in store then HitResponse(gets[0].reqid, store[gets[0].key]) else [])
      + Answers(gets[1..], noop, store)
  }

  /** A server with this store, given a request. */
  function Serve(store: map<seq<Byte>, Entry>, request: seq<Byte>): Option<seq<Byte>> {
    match ReadRequest(request)
    case None => None
    case Some((gets, noop, _)) => Some(Answers(gets, noop, store))
  }

  /** The reply to the gets for the keys from number `from` on. */
  function Reply(zs: seq<Key>, store: map<seq<Byte>, Entry>, from: nat): seq<Byte>
    requires from <= |zs|
  {
    Answers(GetsFrom(zs, from), |Remembered(zs)|, store)
  }

  lemma ReplyStep(zs: seq<Key>, store: map<seq<Byte>, Entry>, from: nat)
    requires from < |zs|
    ensures Reply(zs, store, from)
            == (if zs[from].bytes in store then HitResponse(ReqidOf(zs, from), store[zs[from].bytes]) else [])
               + Reply(zs, store, from + 1)
  {
    var get := Get(ReqidOf(zs, from), zs[from].bytes);
    assert ([get] + GetsFrom(zs, from + 1))[1..] == GetsFrom(zs, from + 1);
    hide HitResponse, NoopResponse, ReqidOf, Remembered;
  }

  /** What the caller should get: for each key that is stored, its entry under its own pointer. */
  function Expected(zs: seq<Key>, store: map<seq<Byte>, Entry>, from: nat): seq<Item>
    requires from <= |zs|
    decreases |zs| - from
  {
    if from == |zs| then []
    else
      (if zs[from].bytes in store
       then var e := store[zs[from].bytes]; [Item(zs[from].pointer, e.flags, e.cas, e.body)]
       else [])
      + Expected(zs, store, from + 1)
  }

  lemma {:induction false} RunInput(p: Parser, s: seq<Byte>, rest: seq<Byte>)
    requires (p.mode.Head? && |p.input| + |s| < HEADER_SIZE) || (p.mode.Extras? && |p.input| + |s| < EXTRAS_SIZE)
    ensures Run(p, s + rest) == Run(p.(input := p.input + s), rest)
    decreases |s|
  {
    if s == [] {
      assert s + rest == rest && p.input + s == p.input;
    } else {
      assert (s + rest)[0] == s[0] && (s + rest)[1..] == s[1..] + rest;
      RunInput(p.(input := p.input + [s[0]]), s[1..], rest);
      assert p.input + [s[0]] + s[1..] == p.input + s;
    }
  }

  lemma RunHeader(p: Parser, h: seq<Byte>, rest: seq<Byte>)
    requires p.mode.Head? && p.input == [] && |h| == HEADER_SIZE
    ensures Run(p, h + rest) == Run(EndOfHeader(p, h), rest)
  {
    var n := HEADER_SIZE - 1;
    assert h + rest == h[..n] + ([h[n]] + rest);
    RunInput(p, h[..n], [h[n]] + rest);
    assert ([h[n]] + rest)[1..] == rest;
    assert p.input + h[..n] + [h[n]] == h;
  }

  lemma RunExtras(p: Parser, x: seq<Byte>, rest: seq<Byte>)
    requires p.mode.Extras? && p.input == [] && |x| == EXTRAS_SIZE
    ensures Run(p, x + rest) == Run(EndOfExtras(p, x), rest)
  {
    var n := EXTRAS_SIZE - 1;
    assert x + rest == x[..n] + ([x[n]] + rest);
    RunInput(p, x[..n], [x[n]] + rest);
    assert ([x[n]] + rest)[1..] == rest;
    assert p.input + x[..n] + [x[n]] == x;
  }

  lemma {:induction false} RunPartBody(p: Parser, s: seq<Byte>, rest: seq<Byte>)
    requires (p.mode.Body? || p.mode.ErrorBody?) && |p.readbuf| + |s| < p.length
    ensures Run(p, s + rest) == Run(p.(readbuf := p.readbuf + s), rest)
    decreases |s|
  {
    if s == [] {
      assert s + rest == rest && p.readbuf + s == p.readbuf;
    } else {
      assert (s + rest)[0] == s[0] && (s + rest)[1..] == s[1..] + rest;
      RunPartBody(p.(readbuf := p.readbuf + [s[0]]), s[1..], rest);
      assert p.readbuf + [s[0]] + s[1..] == p.readbuf + s;
    }
  }

  lemma RunBody(p: Parser, body: seq<Byte>, rest: seq<Byte>)
    requires p.mode.Body? && p.readbuf == [] && 0 < |body| == p.length
    ensures Run(p, body + rest) == Run(EndOfBody(p, body), rest)
  {
    var n := |body| - 1;
    assert body + rest == body[..n] + ([body[n]] + rest);
    RunPartBody(p, body[..n], [body[n]] + rest);
    var q := p.(readbuf := p.readbuf + body[..n]);
    RunLastByte(q, body[n], rest);
    assert q.readbuf + [body[n]] == body;
    assert EndOfBody(q, body) == EndOfBody(p, body);
  }

  lemma RunLastByte(p: Parser, b: Byte, rest: seq<Byte>)
    requires p.mode.Body? && |p.readbuf| + 1 == p.length
    ensures Run(p, [b] + rest) == Run(EndOfBody(p, p.readbuf + [b]), rest)
  {
    assert ([b] + rest)[1..] == rest;
  }

  lemma RunNone(p: Parser)
    ensures Run(p, []) == (p, [])
  {
  }

  lemma HeaderFields(opcode: Byte, extras: Byte, total: nat, reqid: nat, cas: nat)
    requires total < 0x1_0000_0000 && reqid < 0x1_0000_0000 && cas < 0x1_0000_0000_0000_0000
    ensures var h := ResponseHeader(opcode, extras, total, reqid, cas);
            && |h| == HEADER_SIZE && h[0] == RESPONSE_MAGIC && h[1] == opcode && h[4] == extras
            && FromBig(h[6..8]) == 0 && FromBig(h[8..12]) == total && FromBig(h[12..16]) == reqid
            && FromBig(h[16..24]) == cas
  {
    assert FromBig(Big(0, 2)) == 0 by { Powers(); BigRoundTrip(0, 2); }
    assert FromBig(Big(total, 4)) == total by { Powers(); BigRoundTrip(total, 4); }
    assert FromBig(Big(reqid, 4)) == reqid by { Powers(); BigRoundTrip(reqid, 4); }
    assert FromBig(Big(cas, 8)) == cas by { Powers(); BigRoundTrip(cas, 8); }
    hide Big, FromBig;
    Layout([RESPONSE_MAGIC, opcode] + Big(0, 2) + [extras, 0], Big(0, 2), Big(total, 4), Big(reqid, 4), Big(cas, 8));
  }

  lemma Layout<T>(a: seq<T>, b: seq<T>, c: seq<T>, d: seq<T>, e: seq<T>)
    requires |a| == 6 && |b| == 2 && |c| == 4 && |d| == 4 && |e| == 8
    ensures var s := a + b + c + d + e;
            s[6..8] == b && s[8..12] == c && s[12..16] == d && s[16..24] == e
  {
  }

  /** Any response with a status of zero, as bytes: four bytes of flags are read, then as many bytes of the value as the
      total says without the extras, or as it says if that is less than the extras. The value is delivered under the key
      its reqid stands for, or not at all if there is none. A plain get is over with it, any other goes on. */
  lemma AnyValueRead(p: Parser, h: seq<Byte>, x: seq<Byte>, body: seq<Byte>, rest: seq<Byte>) returns (q: Parser)
    requires p.mode.Head? && p.input == [] && |h| == 24 && |x| == 4
    requires h[0] == 0x81 && h[1] != 0x0a && FromBig(h[6..8]) == 0 && FromBig(h[8..12]) > 0
    requires |body| == if FromBig(h[8..12]) >= h[4] then FromBig(h[8..12]) - h[4] else FromBig(h[8..12])
    ensures Run(p, h + (x + (body + rest))) == Run(q, rest)
    ensures var reqid := FromBig(h[12..16]);
            if reqid >= |p.keys| then q.mode.Stray? && q.items == p.items
            else q.items == p.items + [Item(p.keys[reqid], FromBig(x), FromBig(h[16..24]), body)] && q.keys == p.keys
                 && if h[1] == 0 then q.mode.Done? else q.mode.Head? && q.input == []
  {
    hide Run, FromBig;
    RunHeader(p, h, x + (body + rest));
    var p1 := EndOfHeader(p, h);
    RunExtras(p1, x, body + rest);
    q := EndOfExtras(p1, x);
    if body == [] {
      assert body + rest == rest;
    } else {
      RunBody(q, body, rest);
      q := EndOfBody(q, body);
    }
  }

  /** Any value that is answered: it is delivered under the key its reqid stands for, or not at all if there is none. A
      plain get is over with it, a quiet one goes on. */
  lemma ValueRead(p: Parser, opcode: Byte, reqid: nat, e: Entry, rest: seq<Byte>) returns (q: Parser)
    requires p.mode.Head? && p.input == [] && Sendable(e) && reqid < 0x1_0000_0000 && opcode != OP_NOOP
    ensures Run(p, ValueResponse(opcode, reqid, e) + rest) == Run(q, rest)
    ensures reqid >= |p.keys| ==> q.mode.Stray? && q.items == p.items
    ensures reqid < |p.keys| ==>
              && q.items == p.items + [Item(p.keys[reqid], e.flags, e.cas, e.body)] && q.keys == p.keys
              && (if opcode == 0 then q.mode.Done? else q.mode.Head? && q.input == [])
  {
    var total := EXTRAS_SIZE + |e.body|;
    var h := ResponseHeader(opcode, EXTRAS_SIZE, total, reqid, e.cas);
    HeaderFields(opcode, EXTRAS_SIZE, total, reqid, e.cas);
    hide ResponseHeader, Run, FromBig;
    assert ValueResponse(opcode, reqid, e) + rest == h + (Big(e.flags, 4) + (e.body + rest));
    Powers();
    BigRoundTrip(e.flags, 4);
    q := AnyValueRead(p, h, Big(e.flags, 4), e.body, rest);
  }

  /** One hit delivers one item, under the key its reqid stands for. */
  lemma HitRoundTrip(p: Parser, reqid: nat, e: Entry, rest: seq<Byte>) returns (q: Parser)
    requires p.mode.Head? && p.input == [] && Sendable(e) && reqid < |p.keys| && reqid < 0x1_0000_0000
    ensures Run(p, HitResponse(reqid, e) + rest) == Run(q, rest)
    ensures q.mode.Head? && q.input == [] && q.keys == p.keys
    ensures q.items == p.items + [Item(p.keys[reqid], e.flags, e.cas, e.body)]
  {
    hide ValueResponse, Run;
    q := ValueRead(p, OP_GETQ, reqid, e, rest);
  }

  /** A plain get is over with its value, and what follows is left unread. */
  lemma PlainGetEnds(p: Parser, reqid: nat, e: Entry, rest: seq<Byte>)
    requires p.mode.Head? && p.input == [] && Sendable(e) && reqid < |p.keys| && reqid < 0x1_0000_0000
    ensures var (q, left) := Run(p, ValueResponse(OP_GET, reqid, e) + rest);
            && q.mode.Done? && left == rest
            && q.items == p.items + [Item(p.keys[reqid], e.flags, e.cas, e.body)]
  {
    hide ValueResponse;
    var q := ValueRead(p, OP_GET, reqid, e, rest);
  }

  /** How a request ends without a value: a wrong first byte fails it, a NOOP or a response without a body ends it, and
      so does an error, once its body is read to the last byte. Nothing is delivered, and what follows is left unread.
      */
  lemma NoValueEnds(p: Parser, h: seq<Byte>, body: seq<Byte>, rest: seq<Byte>)
    requires p.mode.Head? && p.input == [] && |h| == 24
    ensures h[0] != 0x81 ==> var (q, left) := Run(p, h + rest); q.mode.Failed? && q.items == p.items && left == rest
    ensures h[0] == 0x81 && (h[1] == 0x0a || FromBig(h[8..12]) == 0) ==>
              var (q, left) := Run(p, h + rest); q.mode.Done? && q.items == p.items && left == rest
    ensures h[0] == 0x81 && h[1] != 0x0a && FromBig(h[6..8]) != 0 && 0 < |body| == FromBig(h[8..12]) ==>
              var (q, left) := Run(p, h + (body + rest)); q.mode.Done? && q.items == p.items && left == rest
  {
    hide FromBig;
    RunHeader(p, h, rest);
    RunHeader(p, h, body + rest);
    if h[0] == 0x81 && h[1] != 0x0a && FromBig(h[6..8]) != 0 && 0 < |body| == FromBig(h[8..12]) {
      var (q, n) := (EndOfHeader(p, h), |body| - 1);
      assert body + rest == body[..n] + ([body[n]] + rest);
      RunPartBody(q, body[..n], [body[n]] + rest);
      LastErrorByte(q.(readbuf := q.readbuf + body[..n]), body[n], rest);
    }
  }

  lemma LastErrorByte(p: Parser, b: Byte, rest: seq<Byte>)
    requires p.mode.ErrorBody? && |p.readbuf| + 1 == p.length
    ensures Run(p, [b] + rest) == (p.(mode := Done), rest)
  {
    assert ([b] + rest)[0] == b && ([b] + rest)[1..] == rest;
    assert Step(p, b) == p.(mode := Done);
    assert Run(p.(mode := Done), rest) == (p.(mode := Done), rest);
  }

  lemma NoopEnds(p: Parser, reqid: nat, tail: seq<Byte>)
    requires p.mode.Head? && p.input == [] && reqid < 0x1_0000_0000
    ensures Run(p, NoopResponse(reqid) + tail) == (p.(mode := Done), tail)
  {
    var h := NoopResponse(reqid);
    HeaderFields(OP_NOOP, 0, 0, reqid, 0);
    RunHeader(p, h, tail);
  }

  lemma {:induction false} ReplyRoundTrip(p: Parser, zs: seq<Key>, store: map<seq<Byte>, Entry>, from: nat,
                                          tail: seq<Byte>)
    requires from <= |zs| < 0x1_0000_0000 && DistinctPointers(zs)
    requires forall k :: k in store ==> Sendable(store[k])
    requires p.mode.Head? && p.input == [] && p.keys == Remembered(zs)
    ensures var (q, left) := Run(p, Reply(zs, store, from) + tail);
            q.mode.Done? && left == tail && q.items == p.items + Expected(zs, store, from)
    decreases |zs| - from
  {
    hide Run, HitResponse, NoopResponse, DistinctPointers, Sendable, Remembered, ReqidOf, Reply;
    assert |Remembered(zs)| == |zs| by { RememberedAll(zs); }
    if from == |zs| {
      assert Reply(zs, store, from) == NoopResponse(|Remembered(zs)|) by { LastReply(zs, store); }
      NoopEnds(p, |Remembered(zs)|, tail);
      assert p.items + [] == p.items;
    } else {
      KeyAt(zs, from);
      ReplyStep(zs, store, from);
      var bytes := zs[from].bytes;
      var more := Reply(zs, store, from + 1) + tail;
      if bytes in store {
        var e := store[bytes];
        assert Reply(zs, store, from) + tail == HitResponse(from, e) + more;
        var q := HitRoundTrip(p, from, e, more);
        ReplyRoundTrip(q, zs, store, from + 1, tail);
        ExpectedHit(zs, store, from, p.items);
      } else {
        assert [] + Reply(zs, store, from + 1) == Reply(zs, store, from + 1);
        ReplyRoundTrip(p, zs, store, from + 1, tail);
        assert [] + Expected(zs, store, from + 1) == Expected(zs, store, from + 1);
      }
    }
  }

  lemma LastReply(zs: seq<Key>, store: map<seq<Byte>, Entry>)
    ensures Reply(zs, store, |zs|) == NoopResponse(|Remembered(zs)|)
  {
  }

  lemma ExpectedHit(zs: seq<Key>, store: map<seq<Byte>, Entry>, from: nat, before: seq<Item>)
    requires from < |zs| && zs[from].bytes in store
    ensures var e := store[zs[from].bytes];
            before + Expected(zs, store, from)
            == before + [Item(zs[from].pointer, e.flags, e.cas, e.body)] + Expected(zs, store, from + 1)
  {
  }

  /** From the keys to their values: with distinct key pointers, whatever the server that reads the request has stored,
      and however its reply is split into reads, each stored key's value comes out exactly once, under that key, and
      the request is done exactly at the NOOP. */
  lemma ValuesReachTheirKeys(zs: seq<Key>, store: map<seq<Byte>, Entry>, chunks: seq<seq<Byte>>, tail: seq<Byte>)
    requires Sizable(zs) && DistinctPointers(zs)
    requires forall k :: k in store ==> Sendable(store[k])
    ensures Serve(store, WholeRequest(zs)).Some?
    ensures Streams.Flatten(chunks) == Serve(store, WholeRequest(zs)).value + tail ==>
              var (q, left) := Streams.Feed(REPLY, Begin(Remembered(zs)), [], chunks);
              q.mode.Done? && left == tail && q.items == Expected(zs, store, 0)
  {
    Served(zs, store);
    hide Serve, WholeRequest, Remembered, Reply, Expected, Sendable;
    if Streams.Flatten(chunks) == Reply(zs, store, 0) + tail {
      Streams.FeedIsRun(REPLY, Begin(Remembered(zs)), [], chunks);
      assert [] + Streams.Flatten(chunks) == Streams.Flatten(chunks);
      ReplyRoundTrip(Begin(Remembered(zs)), zs, store, 0, tail);
      var none: seq<Item> := [];
      assert none + Expected(zs, store, 0) == Expected(zs, store, 0);
    }
  }

  lemma Served(zs: seq<Key>, store: map<seq<Byte>, Entry>)
    requires Sizable(zs)
    ensures Serve(store, WholeRequest(zs)) == Some(Reply(zs, store, 0))
  {
    RequestRoundTrip(zs, []);
    assert WholeRequest(zs) + [] == WholeRequest(zs);
    hide ReadRequest, WholeRequest, Answers;
  }

  // ---------------------------------------------------------------------------------------------------------
  // The code

  /** STRAY stands for the access beyond the key queue. */
  datatype Code = DONE | MORE | AGAIN | FAILURE | STRAY

  datatype Handler = ParseResponse | ParseValue | ReadValue | ReadResponse

  class BinaryRequest {
    var stream: seq<Byte>
    var parse: Handler
    const keys: seq<KeyPointer>
    var input: seq<Byte>
    var opcode: Byte
    var reqid: nat
    var length: nat
    var flags: nat
    var cas: nat
    var readbuf: seq<Byte>
    var items: seq<Item>

    ghost predicate Valid()
      reads this
    {
      && (parse.ParseResponse? ==> |input| < HEADER_SIZE)
      && (parse.ParseValue? ==> |input| < EXTRAS_SIZE && readbuf == [])
      && (parse.ReadValue? ==> input == [] && (readbuf == [] || |readbuf| < length))
      && (parse.ReadResponse? ==> |readbuf| < length)
    }

    ghost function Raw(mode: Mode): Parser
      reads this
    {
      Parser(mode, keys, input, opcode, reqid, length, flags, cas, readbuf, items)
    }

    /** The parser state. A value with an empty body counts as read once its header is. */
    ghost function View(code: Code): Parser
      reads this
    {
      match code
      case DONE => Raw(Done)
      case FAILURE => Raw(Failed)
      case STRAY => Raw(Stray)
      case _ =>
        match parse
        case ParseResponse => Raw(Head)
        case ParseValue => Raw(Extras)
        case ReadValue => if length == 0 then EndOfBody(Raw(Body), []) else Raw(Body)
        case ReadResponse => Raw(ErrorBody)
    }

    constructor (keys: seq<KeyPointer>)
      ensures Valid() && View(AGAIN) == Begin(keys) && stream == [] && this.keys == keys
    {
      this.keys := keys;
      stream, parse, input, opcode, reqid, length, flags, cas, readbuf, items :=
        [], ParseResponse, [], 0, 0, 0, 0, 0, [], [];
    }

    /** mmc_stream_get: collects `n` bytes in the input buffer; None while some are missing. */
    method Get(n: nat) returns (bytes: Option<seq<Byte>>)
      requires (parse.ParseResponse? && n == HEADER_SIZE) || (parse.ParseValue? && n == EXTRAS_SIZE)
      requires Valid()
      modifies `stream, `input
      ensures bytes.None? ==> Valid() && (View(MORE), stream) == Run(old(View(AGAIN)), old(stream))
      ensures bytes.Some? ==> |bytes.value| == n && input == [] && |stream| < |old(stream)|
                              && Run(old(View(AGAIN)), old(stream))
                                 == Run(if parse.ParseResponse? then EndOfHeader(old(View(AGAIN)), bytes.value)
                                        else EndOfExtras(old(View(AGAIN)), bytes.value), stream)
    {
      var wanted := n - |input|;
      if |stream| < wanted {
        assert stream + [] == stream;
        RunInput(View(AGAIN), stream, []);
        stream, input := [], input + stream;
        return None;
      }
      var k := wanted - 1;
      assert stream == stream[..k] + ([stream[k]] + stream[k + 1..]);
      RunInput(View(AGAIN), stream[..k], [stream[k]] + stream[k + 1..]);
      assert ([stream[k]] + stream[k + 1..])[1..] == stream[k + 1..];
      bytes := Some(input + stream[..k] + [stream[k]]);
      stream, input := stream[k + 1..], [];
    }

    /** mmc_request_parse_response */
    method OnResponse() returns (code: Code)
      requires Valid() && parse.ParseResponse?
      modifies this
      ensures Valid()
      ensures code.MORE? ==> (View(MORE), stream) == Run(old(View(AGAIN)), old(stream))
      ensures !code.MORE? ==> |stream| < |old(stream)| && !parse.ReadValue?
                              && Run(old(View(AGAIN)), old(stream)) == Run(View(code), stream)
    {
      hide Run, FromBig;
      var bytes := Get(HEADER_SIZE);
      if bytes.None? { return MORE; }
      var h := bytes.value;
      if h[0] != RESPONSE_MAGIC { return FAILURE; }
      if h[1] == OP_NOOP { return DONE; }
      var status := FromBig(h[6..8]);
      opcode, reqid, length, cas, readbuf := h[1], FromBig(h[12..16]), FromBig(h[8..12]), FromBig(h[16..24]), [];
      if length == 0 { return DONE; }
      if status != 0 {
        parse := ReadResponse;
      } else {
        parse := ParseValue;
        if length >= h[4] { length := length - h[4]; }
      }
      return AGAIN;
    }

    /** mmc_request_parse_value */
    method OnValue() returns (code: Code)
      requires Valid() && parse.ParseValue?
      modifies this
      ensures Valid()
      ensures code.MORE? ==> (View(MORE), stream) == Run(old(View(AGAIN)), old(stream))
      ensures !code.MORE? ==> code.AGAIN? && |stream| < |old(stream)|
                              && Run(old(View(AGAIN)), old(stream)) == Run(View(AGAIN), stream)
    {
      var bytes := Get(EXTRAS_SIZE);
      if bytes.None? { return MORE; }
      flags, parse := FromBig(bytes.value), ReadValue;
      return AGAIN;
    }

    /** mmc_request_read_value */
    method OnBody() returns (code: Code)
      requires Valid() && parse.ReadValue?
      modifies this
      ensures Valid() && |stream| <= |old(stream)|
      ensures code.MORE? ==> (View(MORE), stream) == Run(old(View(AGAIN)), old(stream))
      ensures !code.MORE? ==> parse.ParseResponse? && Run(old(View(AGAIN)), old(stream)) == Run(View(code), stream)
    {
      hide Run;
      ghost var p, all := View(AGAIN), stream;
      var wanted := length - |readbuf|;
      if |stream| < wanted {
        assert stream + [] == stream;
        RunPartBody(View(AGAIN), stream, []);
        RunNone(p.(readbuf := p.readbuf + stream));
        readbuf, stream := readbuf + stream, [];
        return MORE;
      }
      if length > 0 {
        var k := wanted - 1;
        assert stream == stream[..k] + ([stream[k]] + stream[k + 1..]);
        RunPartBody(View(AGAIN), stream[..k], [stream[k]] + stream[k + 1..]);
        RunLastByte(p.(readbuf := p.readbuf + stream[..k]), stream[k], stream[k + 1..]);
        readbuf, stream := readbuf + stream[..k] + [stream[k]], stream[k + 1..];
        assert Run(p, all) == Run(EndOfBody(Raw(Body), readbuf), stream);
      }
      var body := readbuf;
      parse, readbuf := ParseResponse, [];
      if reqid >= |keys| { return STRAY; }
      items := items + [Item(keys[reqid], flags, cas, body)];
      if opcode == OP_GET { return DONE; }
      return AGAIN;
    }

    /** mmc_request_read_response */
    method OnError() returns (code: Code)
      requires Valid() && parse.ReadResponse?
      modifies this
      ensures Valid()
      ensures code.MORE? ==> (View(MORE), stream) == Run(old(View(AGAIN)), old(stream))
      ensures !code.MORE? ==> code.DONE? && Run(old(View(AGAIN)), old(stream)) == Run(View(DONE), stream)
    {
      var wanted := length - |readbuf|;
      if |stream| < wanted {
        assert stream + [] == stream;
        RunPartBody(View(AGAIN), stream, []);
        readbuf, stream := readbuf + stream, [];
        return MORE;
      }
      var k := wanted - 1;
      assert stream == stream[..k] + ([stream[k]] + stream[k + 1..]);
      RunPartBody(View(AGAIN), stream[..k], [stream[k]] + stream[k + 1..]);
      assert ([stream[k]] + stream[k + 1..])[1..] == stream[k + 1..];
      readbuf, stream := readbuf + stream[..k], stream[k + 1..];
      return DONE;
    }

    /** The parser is called again for as long as it asks for it. */
    method Parse() returns (code: Code)
      requires Valid()
      modifies this
      ensures Valid() && !code.AGAIN?
      ensures (View(code), stream) == Run(old(View(AGAIN)), old(stream))
    {
      code := AGAIN;
      while code.AGAIN?
        invariant Valid()
        invariant code.AGAIN? ==> Run(View(AGAIN), stream) == Run(old(View(AGAIN)), old(stream))
        invariant !code.AGAIN? ==> (View(code), stream) == Run(old(View(AGAIN)), old(stream))
        decreases if code.AGAIN? then 2 * |stream| + (if parse.ReadValue? then 1 else 0) + 1 else 0
      {
        match parse
        case ParseResponse => code := OnResponse();
        case ParseValue => code := OnValue();
        case ReadValue => code := OnBody();
        case ReadResponse => code := OnError();
      }
    }
  }
}
