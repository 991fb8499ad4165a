/** Keys and ASCII store commands: what mmc_prepare_key_ex and mmc_ascii_store write, and that it can be read back in
    one way only. A character stands for a byte. */
module AsciiStore {
  import opened Basics
  import opened Wrappers
  import opened Decimal

  // ---------------------------------------------------------------------------------------------------------
  // Keys

  function Clean(c: char): char { if c > ' ' then c else '_' }

  function Sanitised(s: string): string { seq(|s|, k requires 0 <= k < |s| => Clean(s[k])) }

  function Truncated(s: string): string { if |s| < MAX_KEY_LEN then s else s[..MAX_KEY_LEN] }

  predicate IsKey(s: string) {
    0 < |s| <= MAX_KEY_LEN && forall k :: 0 <= k < |s| ==> s[k] > ' '
  }

  /** mmc_prepare_key_ex: writes the key with its prefix into `result`, NUL-terminated. Fails on the empty key only. The
      whole prefix is written before it is cut to size, so `result` has to have room for it. */
  method PrepareKey(key: string, prefix: Option<string>, result: array<char>) returns (length: Option<nat>)
    requires result.Length > MAX_KEY_LEN && (prefix.Some? ==> |prefix.value| <= result.Length)
    modifies result
    ensures length.None? <==> key == ""
    ensures length.None? ==> result[..] == old(result[..])
    ensures length.Some? ==>
              var full := (if prefix.Some? then prefix.value else "") + key;
              && length.value == (if |full| < 250 then |full| else 250) && result[length.value] == '\0'
              && (forall k :: 0 <= k < length.value ==> result[k] == if full[k] > ' ' then full[k] else '_')
              && result[..length.value] == Sanitised(Truncated(full)) && IsKey(result[..length.value])
  {
    if key == "" { return None; }
    hide Clean, IsKey, Sanitised, Truncated;
    var before := if prefix.Some? then prefix.value else "";
    var n := if |before| + |key| < MAX_KEY_LEN then |before| + |key| else MAX_KEY_LEN;
    result[n] := '\0';
    if before != "" {
      var i := 0;
      while i < |before|
        invariant i <= |before|
        invariant forall k :: 0 <= k < i ==> result[k] == Clean(before[k])
      {
        result[i] := Clean(before[i]);
        i := i + 1;
      }
      var j := 0;
      while j + i < n
        invariant i == |before| && (j == 0 || j + i <= n)
        invariant forall k :: 0 <= k < i + j ==> result[k] == Clean((before + key)[k])
      {
        result[j + i] := Clean(key[j]);
        j := j + 1;
      }
      result[n] := '\0';
    } else {
      var i := 0;
      while i < n
        invariant i <= n && result[n] == '\0'
        invariant forall k :: 0 <= k < i ==> result[k] == Clean((before + key)[k])
      {
        result[i] := Clean(key[i]);
        i := i + 1;
      }
    }
    Prepared(before + key, result[..], n);
    assert result[..][..n] == result[..n];
    return Some(n);
  }

  lemma Prepared(full: string, r: string, n: nat)
    requires full != "" && n == (if |full| < 250 then |full| else 250) && n <= |r|
    requires forall k :: 0 <= k < n ==> r[k] == Clean(full[k])
    ensures r[..n] == Sanitised(Truncated(full)) && IsKey(r[..n])
    ensures forall k :: 0 <= k < n ==> r[k] == if full[k] > ' ' then full[k] else '_'
  {
    SanitisedIsKey(full);
    assert r[..n] == Sanitised(Truncated(full));
  }

  /** A key that is fit to be sent is sent as it is, so that different ones stay different. */
  lemma FitKeysStay(key: string)
    requires |key| <= 250 && forall k :: 0 <= k < |key| ==> key[k] > ' '
    ensures Sanitised(Truncated(key)) == key
  {
  }

  predicate SentAsUnderscore(c: char) { c <= ' ' || c == '_' }

  /** Exactly when two keys are sent as the same one: they are of one length, or both too long, and in each of the first
      250 positions they agree or both have something that is sent as an underscore. */
  lemma SameKeyExactly(a: string, b: string)
    ensures Sanitised(Truncated(a)) == Sanitised(Truncated(b))
            <==> (|a| == |b| || (|a| >= 250 && |b| >= 250))
                 && forall k :: 0 <= k < |a| && k < |b| && k < 250 ==>
                      a[k] == b[k] || (SentAsUnderscore(a[k]) && SentAsUnderscore(b[k]))
  {
    var (s, t) := (Sanitised(Truncated(a)), Sanitised(Truncated(b)));
    if s == t {
      forall k | 0 <= k < |a| && k < |b| && k < 250
        ensures a[k] == b[k] || (SentAsUnderscore(a[k]) && SentAsUnderscore(b[k]))
      {
        assert s[k] == t[k];
      }
    }
  }

  lemma SanitisedIsKey(s: string)
    requires s != ""
    ensures IsKey(Sanitised(Truncated(s)))
  {
  }

  // ---------------------------------------------------------------------------------------------------------
  // Commands

  datatype Op = Set | Add | Replace | Cas | Append | Prepend

  /** `cas` is there exactly for the op Cas. */
  datatype Command = Command(op: Op, key: string, flags: nat, exptime: nat, cas: Option<nat>, body: string)

  function OpName(op: Op): string {
    match op
    case Set => "set"
    case Add => "add"
    case Replace => "replace"
    case Cas => "cas"
    case Append => "append"
    case Prepend => "prepend"
  }

  predicate WellFormed(c: Command) { IsKey(c.key) && (c.cas.Some? <==> c.op.Cas?) }

  function PrintCommand(c: Command): string {
    OpName(c.op) + (" " + (c.key + (" " + (Print(c.flags) + (" " + (Print(c.exptime) + (" " + (Print(|c.body|)
      + (PrintCas(c.cas) + ("\r\n" + (c.body + "\r\n")))))))))))
  }

  function PrintCas(cas: Option<nat>): string {
    match cas case None => "" case Some(n) => " " + Print(n)
  }

  lemma Figures()
    ensures Print(1) == "1" && Print(2) == "2" && Print(3) == "3" && Print(4) == "4"
  {
  }

  /** The commands, written out. */
  lemma CommandBytes(op: Op)
    ensures op != Cas ==>
              var name := if op == Set then "set" else if op == Add then "add" else if op == Replace then "replace"
                          else if op == Append then "append" else "prepend";
              PrintCommand(Command(op, "k", 1, 2, None, "abc")) == name + " k 1 2 3\r\nabc\r\n"
  {
    hide Print;
    Figures();
    ghost var tail := " " + ("k" + (" " + ("1" + (" " + ("2" + (" " + ("3" + ("" + ("\r\n" + ("abc" + "\r\n"))))))))));
    assert tail == " k 1 2 3\r\nabc\r\n";
    assert !op.Cas? ==> PrintCommand(Command(op, "k", 1, 2, None, "abc")) == OpName(op) + tail;
  }

  lemma CasBytes()
    ensures PrintCommand(Command(Cas, "k", 1, 2, Some(4), "abc")) == "cas k 1 2 3 4\r\nabc\r\n"
  {
    hide Print;
    Figures();
  }

  function PrintCommands(cs: seq<Command>): string {
    if cs == [] then "" else PrintCommand(cs[0]) + PrintCommands(cs[1..])
  }

  class StoreRequest {
    var sendbuf: string

    /** mmc_ascii_store, for the value as packed into `body` and `flags`. */
    method Store(op: Op, key: string, flags: nat, exptime: nat, cas: nat, body: string)
      modifies this
      ensures sendbuf == old(sendbuf)
                         + PrintCommand(Command(op, key, flags, exptime, if op.Cas? then Some(cas) else None, body))
    {
      hide Print, OpName;
      ghost var t7 := "\r\n" + (body + "\r\n");
      ghost var t6 := PrintCas(if op.Cas? then Some(cas) else None) + t7;
      ghost var t5 := " " + (Print(|body|) + t6);
      ghost var t4 := " " + (Print(exptime) + t5);
      ghost var t3 := " " + (Print(flags) + t4);
      AppendString(OpName(op), " " + (key + t3));
      AppendString(" ", key + t3);
      AppendString(key, t3);
      AppendString(" ", Print(flags) + t4);
      AppendString(Print(flags), t4);
      AppendString(" ", Print(exptime) + t5);
      AppendString(Print(exptime), t5);
      AppendString(" ", Print(|body|) + t6);
      AppendString(Print(|body|), t6);
      if op.Cas? {
        assert t6 == " " + (Print(cas) + t7);
        AppendString(" ", Print(cas) + t7);
        AppendString(Print(cas), t7);
      } else {
        assert t6 == t7;
      }
      AppendString("\r\n", body + "\r\n");
      AppendString(body, "\r\n");
      AppendString("\r\n", "");
      assert sendbuf + "" == sendbuf && "\r\n" + "" == "\r\n";
    }

    /** smart_string_appendl; `rest` is what is still to come. */
    method AppendString(s: string, ghost rest: string)
      modifies this
      ensures sendbuf == old(sendbuf) + s && sendbuf + rest == old(sendbuf) + (s + rest)
    {
      sendbuf := sendbuf + s;
    }
  }

  // ---------------------------------------------------------------------------------------------------------
  // Reading commands back

  /** The characters up to the next blank or control character. */
  function FieldLength(s: string): (k: nat)
    ensures k <= |s|
  {
    if s == "" || s[0] <= ' ' then 0 else 1 + FieldLength(s[1..])
  }

  function Field(s: string): (string, string) { (s[..FieldLength(s)], s[FieldLength(s)..]) }

  /** A blank and the field behind it. */
  function NextField(s: string): Option<(string, string)> {
    if s != "" && s[0] == ' ' then Some(Field(s[1..])) else None
  }

  function NextNumber(s: string): Option<(nat, string)> {
    match NextField(s)
    case None => None
    case Some((f, rest)) => if f != "" && Digits(f) then Some((Value(f), rest)) else None
  }

  function OpOf(name: string): Option<Op> {
    if name == "set" then Some(Set)
    else if name == "add" then Some(Add)
    else if name == "replace" then Some(Replace)
    else if name == "cas" then Some(Cas)
    else if name == "append" then Some(Append)
    else if name == "prepend" then Some(Prepend)
    else None
  }

  function LineEnd(s: string): Option<string> {
    if |s| >= 2 && s[..2] == "\r\n" then Some(s[2..]) else None
  }

  function ReadBody(s: string, length: nat): Option<(string, string)> {
    if length > |s| then None
    else
      match LineEnd(s[length..])
      case None => None
      case Some(rest) => Some((s[..length], rest))
  }

  /** A server's reading of one command. */
  function ParseCommand(s: string): Option<(Command, string)> {
    var (name, s1) := Field(s);
    match (OpOf(name), NextField(s1))
    case (Some(op), Some((key, s2))) =>
      (match NextNumber(s2)
       case None => None
       case Some((flags, s3)) =>
         match NextNumber(s3)
         case None => None
         case Some((exptime, s4)) =>
           match NextNumber(s4)
           case None => None
           case Some((length, s5)) => ParseRest(op, key, flags, exptime, length, s5))
    case _ => None
  }

  function ParseRest(op: Op, key: string, flags: nat, exptime: nat, length: nat, s: string): Option<(Command, string)> {
    var (cas, s1) := if op.Cas? then match NextNumber(s) case None => (None, s) case Some((n, rest)) => (Some(n), rest)
                     else (None, s);
    match LineEnd(s1)
    case None => None
    case Some(s2) =>
      match ReadBody(s2, length)
      case None => None
      case Some((body, rest)) => Some((Command(op, key, flags, exptime, cas, body), rest))
  }

  predicate Solid(w: string) { forall k :: 0 <= k < |w| ==> w[k] > ' ' }

  lemma {:induction false} FieldOf(w: string, rest: string)
    requires Solid(w) && rest != "" && rest[0] <= ' '
    ensures Field(w + rest) == (w, rest)
  {
    FieldLengthOf(w, rest);
    assert (w + rest)[..|w|] == w && (w + rest)[|w|..] == rest;
  }

  lemma {:induction false} FieldLengthOf(w: string, rest: string)
    requires Solid(w) && rest != "" && rest[0] <= ' '
    ensures FieldLength(w + rest) == |w|
  {
    if w == "" {
      assert w + rest == rest;
    } else {
      assert (w + rest)[1..] == w[1..] + rest;
      FieldLengthOf(w[1..], rest);
    }
  }

  lemma NextFieldOf(w: string, rest: string)
    requires Solid(w) && rest != "" && rest[0] <= ' '
    ensures NextField(" " + (w + rest)) == Some((w, rest))
  {
    assert (" " + (w + rest))[1..] == w + rest;
    FieldOf(w, rest);
  }

  lemma NextNumberOf(n: nat, rest: string)
    requires rest != "" && rest[0] <= ' '
    ensures NextNumber(" " + (Print(n) + rest)) == Some((n, rest))
  {
    assert Digits(Print(n));
    NextFieldOf(Print(n), rest);
    PrintValue(n);
  }

  lemma BodyOf(body: string, rest: string)
    ensures ReadBody(body + ("\r\n" + rest), |body|) == Some((body, rest))
  {
    var s := body + ("\r\n" + rest);
    assert s[..|body|] == body && s[|body|..] == "\r\n" + rest;
    assert ("\r\n" + rest)[..2] == "\r\n" && ("\r\n" + rest)[2..] == rest;
  }

  lemma OpRoundTrip(op: Op)
    ensures OpOf(OpName(op)) == Some(op) && Solid(OpName(op))
  {
  }

  lemma RestRoundTrip(c: Command, rest: string)
    requires WellFormed(c)
    ensures ParseRest(c.op, c.key, c.flags, c.exptime, |c.body|, PrintCas(c.cas)
                      + ("\r\n" + (c.body + ("\r\n" + rest))))
            == Some((c, rest))
  {
    var tail := "\r\n" + (c.body + ("\r\n" + rest));
    if c.op.Cas? {
      assert PrintCas(c.cas) + tail == " " + (Print(c.cas.value) + tail);
      NextNumberOf(c.cas.value, tail);
    } else {
      assert PrintCas(c.cas) + tail == tail;
    }
    assert tail[..2] == "\r\n" && tail[2..] == c.body + ("\r\n" + rest);
    BodyOf(c.body, rest);
  }

  /** A printed command is read back whole, whatever its body contains and whatever follows it. */
  lemma CommandRoundTrip(c: Command, rest: string)
    requires WellFormed(c)
    ensures ParseCommand(PrintCommand(c) + rest) == Some((c, rest))
  {
    var s5 := PrintCas(c.cas) + ("\r\n" + (c.body + ("\r\n" + rest)));
    var s4 := " " + (Print(|c.body|) + s5);
    var s3 := " " + (Print(c.exptime) + s4);
    var s2 := " " + (Print(c.flags) + s3);
    var s1 := " " + (c.key + s2);
    assert PrintCommand(c) + rest == OpName(c.op) + s1;
    hide PrintCommand, Print, PrintCas, OpName, OpOf, ParseRest, Field, NextField, NextNumber;
    OpRoundTrip(c.op);
    FieldOf(OpName(c.op), s1);
    NextFieldOf(c.key, s2);
    NextNumberOf(c.flags, s3);
    NextNumberOf(c.exptime, s4);
    assert s5[0] <= ' ';
    NextNumberOf(|c.body|, s5);
    RestRoundTrip(c, rest);
  }

  /** Printing is prefix-free: a stream that starts with a command starts with no other one. */
  lemma CommandsPrefixFree(c: Command, d: Command, a: string, b: string)
    requires WellFormed(c) && WellFormed(d) && PrintCommand(c) + a == PrintCommand(d) + b
    ensures c == d && a == b
  {
    CommandRoundTrip(c, a);
    CommandRoundTrip(d, b);
  }

  /** A sent buffer determines the list of commands in it. */
  lemma {:induction false} CommandsInjective(cs: seq<Command>, ds: seq<Command>)
    requires forall k :: 0 <= k < |cs| ==> WellFormed(cs[k])
    requires forall k :: 0 <= k < |ds| ==> WellFormed(ds[k])
    requires PrintCommands(cs) == PrintCommands(ds)
    ensures cs == ds
    decreases |cs|
  {
    hide PrintCommand;
    if cs == [] {
      if ds != [] { NonEmpty(ds[0]); }
    } else if ds == [] {
      NonEmpty(cs[0]);
    } else {
      CommandsPrefixFree(cs[0], ds[0], PrintCommands(cs[1..]), PrintCommands(ds[1..]));
      CommandsInjective(cs[1..], ds[1..]);
      assert cs == [cs[0]] + cs[1..] && ds == [ds[0]] + ds[1..];
    }
  }

  lemma NonEmpty(c: Command)
    ensures PrintCommand(c) != ""
  {
  }
}
