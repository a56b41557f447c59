/**
  * UTF-8 validation against the encoding of sections 3 and 4 of RFC 3629.
  */
module Utf8 {
  import opened Bytes

  // ---- the encoding ----

  predicate IsScalar(cp: int) {
    0 <= cp <= 0x10FFFF && !(0xD800 <= cp <= 0xDFFF)
  }

  /** 10xxxxxx */
  function Tail(bits: nat): byte
    requires bits < 64
  {
    (0x80 + bits) as byte
  }

  function Encode(cp: nat): (e: Bytes)
    requires IsScalar(cp)
    ensures 1 <= |e| <= 4
  {
    if cp < 0x80 then [cp as byte]
    else if cp < 0x800 then [(0xC0 + cp / 64) as byte, Tail(cp % 64)]
    else if cp < 0x10000 then
      [(0xE0 + cp / 64 / 64) as byte, Tail(cp / 64 % 64), Tail(cp % 64)]
    else
      [(0xF0 + cp / 64 / 64 / 64) as byte, Tail(cp / 64 / 64 % 64), Tail(cp / 64 % 64), Tail(cp % 64)]
  }

  predicate AllScalars(cps: seq<nat>) {
    forall cp :: cp in cps ==> IsScalar(cp)
  }

  function EncodeAll(cps: seq<nat>): Bytes
    requires AllScalars(cps)
  {
    if cps == [] then [] else Encode(cps[0]) + EncodeAll(cps[1..])
  }

  // ---- one sequence, as the validator reads it ----

  /** The number of continuation bytes after `lead`, or none if no sequence starts with it. */
  datatype Lead = Bad | Lead(extra: nat, bits: nat)

  /** The masks select the top bits of the byte; what they leave is the payload. */
  function LeadOf(c: byte): Lead {
    var b := c as int;
    if b < 0x80 then Lead(0, b)
    else if b / 32 == 6 then Lead(1, b % 32)
    else if b / 16 == 14 then Lead(2, b % 16)
    else if b / 8 == 30 then Lead(3, b % 8)
    else Bad
  }

  predicate IsContinuation(c: byte) {
    c as int / 64 == 2
  }

  /** `bits` followed by the payload of the first `k` continuation bytes. */
  function Accumulate(bits: nat, text: Bytes, k: nat): nat
    requires k <= |text|
  {
    if k == 0 then bits else Accumulate(bits, text, k - 1) * 64 + text[k - 1] as int % 64
  }

  predicate Shortest(extra: nat, cp: nat) {
    && (extra == 1 ==> cp >= 0x80) && (extra == 2 ==> cp >= 0x800) && (extra == 3 ==> cp >= 0x10000)
  }

  /** A well-formed sequence starts at `text`. */
  predicate Starts(text: Bytes)
  {
    && text != []
    && var lead := LeadOf(text[0]);
       && lead.Lead? && lead.extra < |text|
       && (forall k :: 1 <= k <= lead.extra ==> IsContinuation(text[k]))
       && var cp := Accumulate(lead.bits, text[1..], lead.extra);
          Shortest(lead.extra, cp) && IsScalar(cp)
  }

  function First(text: Bytes): nat
    requires Starts(text)
  {
    Accumulate(LeadOf(text[0]).bits, text[1..], LeadOf(text[0]).extra)
  }

  lemma AccumulateSome(bits: nat, text: Bytes)
    ensures |text| >= 1 ==> Accumulate(bits, text, 1) == bits * 64 + text[0] as int % 64
    ensures |text| >= 2 ==>
              Accumulate(bits, text, 2) == (bits * 64 + text[0] as int % 64) * 64 + text[1] as int % 64
    ensures |text| >= 3 ==>
              Accumulate(bits, text, 3)
              == ((bits * 64 + text[0] as int % 64) * 64 + text[1] as int % 64) * 64 + text[2] as int % 64
  {
    if |text| >= 1 { assert Accumulate(bits, text, 0) == bits; }
  }

  lemma Shift(q: nat, r: nat)
    requires r < 64
    ensures (q * 64 + r) / 64 == q && (q * 64 + r) % 64 == r
  {}

  lemma TailBits(c: byte)
    requires IsContinuation(c)
    ensures c == Tail(c as int % 64)
  {}

  lemma TwoBytes(text: Bytes)
    requires Starts(text) && LeadOf(text[0]).extra == 1
    ensures Encode(First(text)) == text[..2]
  {
    var lead, tail := LeadOf(text[0]), text[1..];
    AccumulateSome(lead.bits, tail);
    LeadBits(text[0]);
    TailBits(text[1]);
    Shift(lead.bits, tail[0] as int % 64);
  }

  lemma ThreeBytes(text: Bytes)
    requires Starts(text) && LeadOf(text[0]).extra == 2
    ensures Encode(First(text)) == text[..3]
  {
    var lead, tail := LeadOf(text[0]), text[1..];
    AccumulateSome(lead.bits, tail);
    LeadBits(text[0]);
    TailBits(text[1]);
    TailBits(text[2]);
    Shift(lead.bits, tail[0] as int % 64);
    Shift(Accumulate(lead.bits, tail, 1), tail[1] as int % 64);
  }

  lemma FourBytes(text: Bytes)
    requires Starts(text) && LeadOf(text[0]).extra == 3
    ensures Encode(First(text)) == text[..4]
  {
    var lead, tail := LeadOf(text[0]), text[1..];
    AccumulateSome(lead.bits, tail);
    LeadBits(text[0]);
    TailBits(text[1]);
    TailBits(text[2]);
    TailBits(text[3]);
    Shift(lead.bits, tail[0] as int % 64);
    Shift(Accumulate(lead.bits, tail, 1), tail[1] as int % 64);
    Shift(Accumulate(lead.bits, tail, 2), tail[2] as int % 64);
  }

  /** What starts at `text` is the encoding of a scalar value. */
  lemma StartsWithEncoding(text: Bytes)
    requires Starts(text)
    ensures IsScalar(First(text)) && Encode(First(text)) <= text
    ensures |Encode(First(text))| == LeadOf(text[0]).extra + 1
  {
    LeadBits(text[0]);
    match LeadOf(text[0]).extra
    case 1 => TwoBytes(text);
    case 2 => ThreeBytes(text);
    case 3 => FourBytes(text);
    case _ =>
  }

  /** The lead byte, from its payload. */
  lemma LeadBits(c: byte)
    requires LeadOf(c).Lead?
    ensures var lead := LeadOf(c);
            match lead.extra
            case 0 => c as int == lead.bits < 0x80
            case 1 => c as int == 0xC0 + lead.bits && lead.bits < 32
            case 2 => c as int == 0xE0 + lead.bits && lead.bits < 16
            case _ => lead.extra == 3 && c as int == 0xF0 + lead.bits && lead.bits < 8
  {}

  lemma LeadOfEncoding(cp: nat)
    requires IsScalar(cp)
    ensures var lead := LeadOf(Encode(cp)[0]);
            lead.Lead? && lead.extra + 1 == |Encode(cp)| && Shortest(lead.extra, cp)
            && match lead.extra
               case 0 => cp == lead.bits
               case 1 => cp / 64 == lead.bits
               case 2 => cp / 64 / 64 == lead.bits
               case _ => cp / 64 / 64 / 64 == lead.bits
  {}

  lemma TailIs(bits: nat)
    requires bits < 64
    ensures IsContinuation(Tail(bits)) && Tail(bits) as int % 64 == bits
  {}

  /** Every encoding is accepted, and read back. */
  lemma EncodingStarts(cp: nat, rest: Bytes)
    requires IsScalar(cp)
    ensures Starts(Encode(cp) + rest) && First(Encode(cp) + rest) == cp
  {
    var text := Encode(cp) + rest;
    var lead := LeadOf(text[0]);
    LeadOfEncoding(cp);
    AccumulateSome(lead.bits, text[1..]);
    TailIs(cp % 64);
    TailIs(cp / 64 % 64);
    TailIs(cp / 64 / 64 % 64);
  }

  // ---- whole strings ----

  /** `text` is the encoding of some sequence of scalar values. */
  ghost predicate WellFormed(text: Bytes) {
    exists cps :: AllScalars(cps) && EncodeAll(cps) == text
  }

  lemma {:induction false} EncodeAllJoin(a: seq<nat>, b: seq<nat>)
    requires AllScalars(a) && AllScalars(b)
    ensures AllScalars(a + b) && EncodeAll(a + b) == EncodeAll(a) + EncodeAll(b)
  {
    if a == [] {
      assert a + b == b;
    } else {
      EncodeAllJoin(a[1..], b);
      assert (a + b)[1..] == a[1..] + b;
    }
  }

  /** A string is well-formed exactly if a sequence starts it and the rest is well-formed. */
  lemma WellFormedRest(text: Bytes)
    requires text != []
    ensures WellFormed(text) <==> Starts(text) && WellFormed(text[LeadOf(text[0]).extra + 1..])
  {
    if WellFormed(text) {
      var cps :| AllScalars(cps) && EncodeAll(cps) == text;
      EncodingStarts(cps[0], EncodeAll(cps[1..]));
      StartsWithEncoding(text);
      assert text[|Encode(cps[0])|..] == EncodeAll(cps[1..]);
    }
    if Starts(text) && WellFormed(text[LeadOf(text[0]).extra + 1..]) {
      StartsWithEncoding(text);
      var n := LeadOf(text[0]).extra + 1;
      var cps :| AllScalars(cps) && EncodeAll(cps) == text[n..];
      var all := [First(text)] + cps;
      assert all[1..] == cps;
      assert text == text[..n] + text[n..];
      assert EncodeAll(all) == text;
    }
  }

  /** No string encodes two different sequences of scalar values. */
  lemma {:induction false} EncodingIsUnique(a: seq<nat>, b: seq<nat>)
    requires AllScalars(a) && AllScalars(b) && EncodeAll(a) == EncodeAll(b)
    ensures a == b
  {
    if a != [] && b != [] {
      EncodingStarts(a[0], EncodeAll(a[1..]));
      EncodingStarts(b[0], EncodeAll(b[1..]));
      var n := |Encode(a[0])|;
      assert EncodeAll(a)[n..] == EncodeAll(a[1..]);
      assert EncodeAll(b)[n..] == EncodeAll(b[1..]);
      EncodingIsUnique(a[1..], b[1..]);
      assert a == [a[0]] + a[1..] && b == [b[0]] + b[1..];
    }
  }

  lemma WellFormedJoin(s: Bytes, t: Bytes)
    requires WellFormed(s) && WellFormed(t)
    ensures WellFormed(s + t)
  {
    var a :| AllScalars(a) && EncodeAll(a) == s;
    var b :| AllScalars(b) && EncodeAll(b) == t;
    EncodeAllJoin(a, b);
  }

  // ---- the validator ----

  /** is_valid_utf8 accepts exactly the encodings of sequences of scalar values. */
  method IsValidUtf8(text: Bytes) returns (ok: bool)
    ensures ok <==> WellFormed(text)
  {
    var i: nat := 0;
    assert text[0..] == text;
    while i < |text|
      invariant i <= |text| && (WellFormed(text) <==> WellFormed(text[i..]))
    {
      ghost var here := text[i..];
      WellFormedRest(here);
      var lead := LeadOf(text[i]);
      if lead.Bad? { return false; }
      if i + lead.extra >= |text| { return false; }
      var cp, k := lead.bits, 1;
      while k <= lead.extra
        invariant 1 <= k <= lead.extra + 1
        invariant cp == Accumulate(lead.bits, here[1..], k - 1)
        invariant forall j :: 1 <= j < k ==> IsContinuation(here[j])
      {
        if !IsContinuation(text[i + k]) { return false; }
        cp := cp * 64 + text[i + k] as int % 64;
        k := k + 1;
      }
      if !Shortest(lead.extra, cp) || !IsScalar(cp) { return false; }
      assert text[i + lead.extra + 1..] == here[lead.extra + 1..];
      i := i + lead.extra + 1;
    }
    assert text[i..] == [] && EncodeAll([]) == [];
    ok := true;
  }
}
