/** Packing values into bytes and flags, and back (mmc_pack_value and mmc_unpack_value in src/memcache_pool.c). A
    character stands for a byte. zlib and PHP's serializer are functions about which only their inverse law is used. */
module ValuePacking {
  import opened Wrappers
  import opened Decimal

  /** A 32-bit flag word by its bits: 0 serialized, 1 compressed, 2-7 and 12-15 unused, 8-11 the type of the value,
      16-31 the caller's own. */
  datatype Flags = Flags(serialized: bool, compressed: bool, unused: nat, kind: nat, spare: nat, upper: nat) {
    predicate Valid() { unused < 0x40 && kind < 0x10 && spare < 0x10 && upper < 0x1_0000 }

    /** The bits laid out from the lowest to the highest. */
    function Word(): nat {
      (if serialized then 1 else 0) + 2 * ((if compressed then 1 else 0) + 2 * (unused + 0x40 * (kind + 0x10 *
      (spare + 0x10 * upper))))
    }

    /** `flags & 0xffff & ~MMC_COMPRESSED` is not zero. */
    predicate UsesReserved() { serialized || unused != 0 || kind != 0 || spare != 0 }
  }

  /** The word taken apart, field by field from the lowest bit. */
  function Fields(word: nat): Flags {
    var b := word / 2;
    var c := b / 2;
    var d := c / 0x40;
    var e := d / 0x10;
    Flags(word % 2 == 1, b % 2 == 1, c % 0x40, d % 0x10, e % 0x10, e / 0x10)
  }

  /** The fields lose nothing of the word. */
  lemma FieldsExact(word: nat)
    requires word < 0x1_0000_0000
    ensures Fields(word).Valid() && Fields(word).Word() == word
  {
    var b := word / 2;
    var c := b / 2;
    var d := c / 0x40;
    var e := d / 0x10;
    assert e < 0x10_0000;
    assert e == e % 0x10 + 0x10 * (e / 0x10);
    assert d == d % 0x10 + 0x10 * e;
    assert c == c % 0x40 + 0x40 * d;
  }

  const TYPE_BOOL := 1
  const TYPE_LONG := 3
  const TYPE_DOUBLE := 7

  const LONG_MIN := -0x8000_0000_0000_0000
  const LONG_MAX := 0x7fff_ffff_ffff_ffff

  type Long = n: int | LONG_MIN <= n <= LONG_MAX

  /** A PHP value; a floating point number is represented by its decimal text. */
  datatype PhpValue<T> = Str(s: string) | Integer(n: Long) | Bool(b: bool) | Double(text: string) | Object(o: T)

  /** `serialize` gives the empty string where PHP's serializer fails or has nothing to say. */
  datatype Codec<!T> = Codec(
    deflate: string -> string,
    inflate: string -> Option<string>,
    serialize: T -> string,
    unserialize: string -> Option<T>)

  ghost predicate CodecOk<T(!new)>(z: Codec<T>) {
    && (forall s :: z.inflate(z.deflate(s)) == Some(s))
    && (forall o :: z.serialize(o) != "" ==> z.unserialize(z.serialize(o)) == Some(o))
  }

  /** The pool's settings: values of `threshold` bytes or more are compressed (0: never by themselves), and only if
      that saves the given fraction. */
  datatype Settings = Settings(threshold: nat, savings: real)

  predicate SettingsOk(p: Settings) { 0.0 <= p.savings <= 1.0 }

  /** The room given to zlib: value_len * (1 - min_compress_savings), truncated. */
  function Limit(p: Settings, length: nat): nat
    requires SettingsOk(p)
  {
    (length as real * (1.0 - p.savings)).Floor
  }

  predicate Wants(p: Settings, value: string, flags: Flags) {
    (p.threshold != 0 && |value| >= p.threshold) || flags.compressed
  }

  /** What mmc_compress puts into the buffer, and the flags it leaves. */
  function Compressed<T>(z: Codec<T>, p: Settings, value: string, flags: Flags): (string, Flags)
    requires SettingsOk(p)
  {
    if Wants(p, value, flags) && |z.deflate(value)| <= Limit(p, |value|)
      then (z.deflate(value), flags.(compressed := true))
    else (value, flags.(compressed := false))
  }

  function PrintLong(n: Long): string { var i: int := n; if n < 0 then "-" + Print(-i) else Print(i) }

  /** mmc_pack_value: the bytes appended and the resulting flags, or None if packing fails. */
  function Pack<T>(z: Codec<T>, p: Settings, v: PhpValue<T>, flags: Flags): Option<(string, Flags)>
    requires SettingsOk(p)
  {
    if flags.UsesReserved() then None
    else
      var flags := flags.(serialized := false);
      match v
      case Str(s) => Some(Compressed(z, p, s, flags))
      case Integer(n) => Some((PrintLong(n), flags.(kind := TYPE_LONG, compressed := false)))
      case Double(d) => Some((d, flags.(kind := TYPE_DOUBLE, compressed := false)))
      case Bool(b) => Some((if b then "1" else "0", flags.(kind := TYPE_BOOL, compressed := false)))
      case Object(o) =>
        if z.serialize(o) == "" then None else Some(Compressed(z, p, z.serialize(o), flags.(serialized := true)))
  }

  class Buffer {
    var value: string

    /** mmc_compress. With `copy` the value is the end of the buffer already and is replaced there. */
    method Compress<T>(z: Codec<T>, p: Settings, text: string, flags: Flags, copy: bool) returns (after: Flags)
      requires SettingsOk(p)
      requires copy ==> |text| <= |value| && value[|value| - |text|..] == text
      modifies this
      ensures var kept := if copy then old(value)[..|old(value)| - |text|] else old(value);
              (value, after) == (kept + Compressed(z, p, text, flags).0, Compressed(z, p, text, flags).1)
    {
      hide Limit;
      assert copy ==> old(value)[..|old(value)| - |text|] + text == old(value);
      after := flags;
      if p.threshold != 0 && |text| >= p.threshold {
        after := after.(compressed := true);
      }
      if after.compressed {
        var room := Limit(p, |text|);
        if copy {
          value := value[..|value| - |text|];
        }
        var packed := z.deflate(text);
        if |packed| <= room {
          value := value + packed;
        } else {
          value := value + text;
          after := after.(compressed := false);
        }
      } else if !copy {
        value := value + text;
      }
    }

    /** mmc_pack_value: what was in the buffer stays in front; a failure leaves the buffer alone. */
    method PackValue<T>(z: Codec<T>, p: Settings, v: PhpValue<T>, flags: Flags) returns (packed: Option<Flags>)
      requires SettingsOk(p)
      modifies this
      ensures match Pack(z, p, v, flags)
              case None => packed == None && value == old(value)
              case Some((bytes, after)) => packed == Some(after) && value == old(value) + bytes
    {
      hide Limit, Compressed, PrintLong;
      if flags.UsesReserved() { return None; }
      var f := flags.(serialized := false);
      match v {
      case Str(s) =>
        f := Compress(z, p, s, f, false);
      case Integer(n) =>
        f := f.(kind := TYPE_LONG, compressed := false);
        value := value + PrintLong(n);
      case Double(d) =>
        f := f.(kind := TYPE_DOUBLE, compressed := false);
        value := value + d;
      case Bool(b) =>
        f := f.(kind := TYPE_BOOL, compressed := false);
        value := value + if b then "1" else "0";
      case Object(o) =>
        var text := z.serialize(o);
        var before := |value|;
        value := value + text;
        if |value| == before {
          assert text == "" && value == old(value);
          return None;
        }
        assert text != "";
        f := f.(serialized := true);
        assert value[|value| - |text|..] == text && value[..|value| - |text|] == old(value);
        f := Compress(z, p, text, f, true);
      }
      packed := Some(f);
    }
  }

  // ---------------------------------------------------------------------------------------------------------
  // Unpacking

  const MAX_EXPANSION := 32768

  /** The whole effect of mmc_uncompress's doubling loop. */
  function Uncompressed<T>(z: Codec<T>, data: string): Option<string> {
    match z.inflate(data)
    case None => None
    case Some(s) => if |s| <= MAX_EXPANSION * |data| then Some(s) else None
  }

  /** The room given at a try: 2, 4, 8, ... times the length. */
  function Room(length: nat, try: nat): nat { if try == 0 then length else 2 * Room(length, try - 1) }

  lemma {:induction false} RoomGrows(length: nat, a: nat, b: nat)
    requires a <= b
    ensures Room(length, a) <= Room(length, b)
    decreases b - a
  {
    if a < b { RoomGrows(length, a, b - 1); }
  }

  lemma FiveTries(length: nat, k: nat)
    ensures Room(length, k + 5) == 32 * Room(length, k)
  {
    assert Room(length, k + 2) == 4 * Room(length, k);
    assert Room(length, k + 4) == 4 * Room(length, k + 2);
  }

  lemma LastRoom(length: nat)
    ensures Room(length, 15) == 32768 * length == MAX_EXPANSION * length
  {
    FiveTries(length, 0);
    FiveTries(length, 5);
    FiveTries(length, 10);
  }

  /** mmc_uncompress: more and more room until it suffices or 15 tries were made; the try that succeeds is the first
      one with enough room. */
  method Uncompress<T>(z: Codec<T>, data: string) returns (result: Option<string>, tries: nat)
    ensures result == Uncompressed(z, data) && 1 <= tries <= 15
    ensures result.Some? ==> |result.value| <= Room(|data|, tries)
    ensures result.Some? && tries > 1 ==> Room(|data|, tries - 1) < |result.value|
  {
    LastRoom(|data|);
    tries := 0;
    result := None;
    while true
      invariant tries < 15
      invariant tries > 0 ==> z.inflate(data).Some? && |z.inflate(data).value| > Room(|data|, tries)
      decreases 15 - tries
    {
      tries := tries + 1;
      var room := Room(|data|, tries);
      var out := z.inflate(data);
      if out.None? {
        return None, tries;
      }
      if |out.value| <= room {
        RoomGrows(|data|, tries, 15);
        return Some(out.value), tries;
      }
      if tries + 1 >= 16 {
        return None, tries;
      }
    }
  }

  /** strtol: white space, a sign, digits as far as they go, clamped to the range of a long. */
  function ScanLong(s: string): Long {
    if s != "" && (s[0] == ' ' || '\t' <= s[0] <= '\r') then ScanLong(s[1..])
    else
      var negative := s != "" && s[0] == '-';
      var t := if s != "" && (s[0] == '-' || s[0] == '+') then s[1..] else s;
      var n: int := Value(t[..Span(t)]);
      if negative then (if -n < LONG_MIN then LONG_MIN else -n) else if n > LONG_MAX then LONG_MAX else n
  }

  /** mmc_unpack_value: the value handed to the handler, or None where it is not called. */
  function Unpack<T>(z: Codec<T>, bytes: string, flags: Flags): Option<PhpValue<T>> {
    var data := if flags.compressed then Uncompressed(z, bytes) else Some(bytes);
    match data
    case None => None
    case Some(text) =>
      if flags.serialized then
        match z.unserialize(text) case None => None case Some(o) => Some(Object(o))
      else if flags.kind == TYPE_LONG then Some(Integer(ScanLong(text)))
      else if flags.kind == TYPE_DOUBLE then Some(Double(text))
      else if flags.kind == TYPE_BOOL then Some(Bool(text == "1"))
      else Some(Str(text))
  }

  // ---------------------------------------------------------------------------------------------------------
  // The round trip

  lemma LongRoundTrip(n: Long)
    ensures ScanLong(PrintLong(n)) == n
  {
    var i: int := n;
    var m: nat := if n < 0 then -i else i;
    var d := Print(m);
    SpanOf(d, "");
    assert d + "" == d && d[..|d|] == d;
    PrintValue(m);
    assert IsDigit(d[0]);
    if n < 0 { assert PrintLong(n)[1..] == d; }
  }

  /** The bytes of a value before compression. */
  function Plain<T>(z: Codec<T>, v: PhpValue<T>): string {
    match v
    case Str(s) => s
    case Integer(n) => PrintLong(n)
    case Double(d) => d
    case Bool(b) => if b then "1" else "0"
    case Object(o) => z.serialize(o)
  }

  lemma CompressedFlags<T>(z: Codec<T>, p: Settings, text: string, flags: Flags)
    requires SettingsOk(p)
    ensures var (bytes, after) := Compressed(z, p, text, flags);
            && (after.compressed <==> Wants(p, text, flags) && |z.deflate(text)| <= Limit(p, |text|))
            && bytes == (if after.compressed then z.deflate(text) else text)
            && after.upper == flags.upper && after.kind == flags.kind && after.serialized == flags.serialized
  {
    hide Limit;
  }

  lemma LimitSaves(p: Settings, length: nat)
    requires SettingsOk(p)
    ensures Limit(p, length) as real <= length as real * (1.0 - p.savings)
  {
  }

  /** Exactly when a value is kept compressed: it is a string or an object, it is long enough or the caller asks for
      it, and that saves at least the given fraction. */
  lemma CompressedExactly<T>(z: Codec<T>, p: Settings, v: PhpValue<T>, flags: Flags)
    requires SettingsOk(p) && Pack(z, p, v, flags).Some?
    ensures var (text, (bytes, after)) := (Plain(z, v), Pack(z, p, v, flags).value);
            && bytes == (if after.compressed then z.deflate(text) else text)
            && (after.compressed
                <==> (v.Str? || v.Object?) && ((p.threshold != 0 && |text| >= p.threshold) || flags.compressed)
                     && |z.deflate(text)| as real <= |text| as real * (1.0 - p.savings))
  {
    var text := Plain(z, v);
    if v.Str? || v.Object? {
      CompressedFlags(z, p, text, flags.(serialized := v.Object?));
      LimitExact(p, |text|, |z.deflate(text)|);
    }
    hide Limit, PrintLong;
  }

  lemma LimitExact(p: Settings, length: nat, n: nat)
    requires SettingsOk(p)
    ensures n <= Limit(p, length) <==> n as real <= length as real * (1.0 - p.savings)
  {
  }

  /** The flag word of a packed value: bit 0 for an object, bit 1 for a compressed value, 0x100, 0x300 or 0x700 for a
      boolean, an integer or a floating point number, and the caller's upper half. */
  lemma PackedWord<T>(z: Codec<T>, p: Settings, v: PhpValue<T>, flags: Flags)
    requires SettingsOk(p) && Pack(z, p, v, flags).Some?
    ensures var after := Pack(z, p, v, flags).value.1;
            after.Word() == (if v.Object? then 0x1 else 0) + (if after.compressed then 0x2 else 0)
                            + (if v.Bool? then 0x100 else if v.Integer? then 0x300 else if v.Double? then 0x700 else 0)
                            + 0x1_0000 * flags.upper
  {
    hide Limit, PrintLong, Wants;
  }

  /** White space: blank, tab, line feed, vertical tab, form feed and carriage return. */
  predicate White(c: char) { c == ' ' || 9 <= c as int <= 13 }

  lemma {:induction false} WhiteSkipped(w: string, s: string)
    requires forall k :: 0 <= k < |w| ==> White(w[k])
    ensures ScanLong(w + s) == ScanLong(s)
    decreases |w|
  {
    if w == "" {
      assert w + s == s;
    } else {
      assert (w + s)[1..] == w[1..] + s;
      WhiteSkipped(w[1..], s);
    }
  }

  function Nearest(n: int): Long {
    if n < -0x8000_0000_0000_0000 then -0x8000_0000_0000_0000
    else if n > 0x7fff_ffff_ffff_ffff then 0x7fff_ffff_ffff_ffff else n
  }

  /** Of any text what comes first counts: white space, a sign, and digits as far as they go. A number that is too large
      for a long gives the nearest one that is not; no digits give 0. */
  lemma ScanClamps(w: string, sign: string, digits: string, rest: string)
    requires (forall k :: 0 <= k < |w| ==> White(w[k])) && (sign == "" || sign == "+" || sign == "-") && Digits(digits)
    requires rest == "" || !IsDigit(rest[0])
    requires sign == "" && digits == "" && rest != "" ==> !White(rest[0]) && rest[0] != '+' && rest[0] != '-'
    ensures var n: int := Value(digits);
            ScanLong(w + (sign + (digits + rest))) == Nearest(if sign == "-" then -n else n)
  {
    var t := digits + rest;
    WhiteSkipped(w, sign + t);
    SpanOf(digits, rest);
    assert t[..|digits|] == digits;
    assert digits != "" ==> IsDigit(digits[0]) && t[0] == digits[0];
    assert sign == "" ==> sign + t == t;
    assert sign != "" ==> (sign + t)[1..] == t && (sign + t)[0] == sign[0];
    hide Digits, Value, Span;
  }

  /** A plain boolean is true for the text "1" alone, and a kind that packing does not know is taken for text. */
  lemma UnknownKinds<T>(z: Codec<T>, bytes: string, flags: Flags)
    requires !flags.compressed && !flags.serialized
    ensures flags.kind == 1 ==> Unpack(z, bytes, flags) == Some(Bool(|bytes| == 1 && bytes[0] == '1'))
    ensures flags.kind !in {1, 3, 7} ==> Unpack(z, bytes, flags) == Some(Str(bytes))
  {
    hide ScanLong;
  }

  /** Packing fails only on reserved flag bits or an object that cannot be serialized, and the caller's upper sixteen
      flag bits survive. The compressed form is kept only within the minimum savings. */
  lemma PackShape<T>(z: Codec<T>, p: Settings, v: PhpValue<T>, flags: Flags)
    requires SettingsOk(p)
    ensures Pack(z, p, v, flags).None? <==>
              flags.UsesReserved() || (v.Object? && z.serialize(v.o) == "")
    ensures Pack(z, p, v, flags).Some? ==>
              var (bytes, after) := Pack(z, p, v, flags).value;
              && after.upper == flags.upper
              && (after.compressed ==>
                    && bytes == z.deflate(Plain(z, v)) && |bytes| <= Limit(p, |Plain(z, v)|)
                    && |bytes| as real <= |Plain(z, v)| as real * (1.0 - p.savings))
              && (!after.compressed ==> bytes == Plain(z, v))
  {
    hide Compressed, PrintLong, Limit;
    var g := flags.(serialized := v.Object?);
    LimitSaves(p, |Plain(z, v)|);
    CompressedFlags(z, p, Plain(z, v), g);
  }

  /** The value is kept in its compressed form. */
  predicate Compresses<T>(z: Codec<T>, p: Settings, v: PhpValue<T>, flags: Flags)
    requires SettingsOk(p)
  {
    (v.Str? || v.Object?) && Wants(p, Plain(z, v), flags) && |z.deflate(Plain(z, v))| <= Limit(p, |Plain(z, v)|)
  }

  /** Exactly when unpacking gives back what was packed: unless the value is kept compressed and is more than 2^15 times
      as long as its compressed form. */
  lemma RoundTripExactly<T(!new)>(z: Codec<T>, p: Settings, v: PhpValue<T>, flags: Flags)
    requires CodecOk(z) && SettingsOk(p) && Pack(z, p, v, flags).Some?
    ensures var (bytes, after) := Pack(z, p, v, flags).value;
            Unpack(z, bytes, after) == Some(v) <==>
            !(Compresses(z, p, v, flags) && |Plain(z, v)| > MAX_EXPANSION * |z.deflate(Plain(z, v))|)
  {
    hide Compressed, PrintLong, Limit, ScanLong, Uncompressed;
    var (bytes, after) := Pack(z, p, v, flags).value;
    match v
    case Integer(n) => LongRoundTrip(n);
    case Bool(b) =>
    case Double(d) =>
    case _ =>
      CompressedFlags(z, p, Plain(z, v), flags.(serialized := v.Object?));
      UnpackPlain(z, bytes, after, Plain(z, v));
  }

  /** The deflate format cannot shrink anything by more than a factor of 1032. */
  ghost predicate Bounded<T(!new)>(z: Codec<T>) { forall s :: |s| <= 1032 * |z.deflate(s)| }

  /** So with zlib every value that was packed is unpacked as it was. */
  lemma RoundTrip<T(!new)>(z: Codec<T>, p: Settings, v: PhpValue<T>, flags: Flags)
    requires CodecOk(z) && Bounded(z) && SettingsOk(p) && Pack(z, p, v, flags).Some?
    ensures var (bytes, after) := Pack(z, p, v, flags).value; Unpack(z, bytes, after) == Some(v)
  {
    RoundTripExactly(z, p, v, flags);
    hide Pack, Unpack, Compresses;
    assert |Plain(z, v)| <= 1032 * |z.deflate(Plain(z, v))|;
  }

  lemma UnpackPlain<T(!new)>(z: Codec<T>, bytes: string, after: Flags, text: string)
    requires CodecOk(z) && (after.compressed ==> bytes == z.deflate(text))
    requires !after.compressed ==> bytes == text
    ensures (if after.compressed then Uncompressed(z, bytes) else Some(bytes))
            == if after.compressed && |text| > MAX_EXPANSION * |bytes| then None else Some(text)
  {
  }
}
