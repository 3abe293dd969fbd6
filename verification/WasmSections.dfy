/** The walk over WebAssembly sections that looks for a start section. */
module WasmSections {
  import opened Prelude

  type Byte = b: int | 0 <= b < 256

  const TWO32: nat := 0x1_0000_0000
  const START: Byte := 8
  const MAGIC: seq<Byte> := [0x00, 0x61, 0x73, 0x6D]

  datatype WasmError = TooShort | BadMagic | TruncatedHeader | InvalidLeb | TruncatedContent

  // ---- section sizes -------------------------------------------------------------------------------

  /** Seven bits moved to the `k`-th group of a 32-bit word: the fifth group keeps four, the sixth none. */
  function Shifted(x: nat, k: nat): nat {
    if k == 0 then x
    else if k == 1 then x * 0x80
    else if k == 2 then x * 0x4000
    else if k == 3 then x * 0x20_0000
    else if k == 4 then (x % 16) * 0x1000_0000
    else 0
  }

  /** Reads a size from its `k`-th byte on; joining disjoint bits is adding them. */
  function ReadSize(s: seq<Byte>, offset: nat, k: nat, size: nat): Result<(nat, nat), WasmError>
    decreases |s| - offset
  {
    if offset >= |s| then Err(TruncatedHeader)
    else
      var b := s[offset];
      var next := size + Shifted(b % 128, k);
      if b < 128 then Ok((next, offset + 1))
      else if k + 1 > 5 then Err(InvalidLeb)
      else ReadSize(s, offset + 1, k + 1, next)
  }

  /** An unsigned LEB128 number: every byte but the last has its top bit set. */
  predicate Terminated(leb: seq<Byte>) {
    leb != [] && leb[|leb| - 1] < 128 && forall i :: 0 <= i < |leb| - 1 ==> leb[i] >= 128
  }

  function LebValue(leb: seq<Byte>): nat { if leb == [] then 0 else leb[0] % 128 + 128 * LebValue(leb[1..]) }

  /** Section 5.2.2 of the WebAssembly Core Specification: at most five bytes and 32 bits. */
  predicate StrictSize(leb: seq<Byte>) { Terminated(leb) && |leb| <= 5 && LebValue(leb) < TWO32 }

  /** What the walk takes for a size. */
  predicate ReadableSize(leb: seq<Byte>) { Terminated(leb) && |leb| <= 6 }

  function SumFrom(leb: seq<Byte>, k: nat): nat {
    if leb == [] then 0 else Shifted(leb[0] % 128, k) + SumFrom(leb[1..], k + 1)
  }

  lemma {:induction false} ReadSizeSums(pre: seq<Byte>, leb: seq<Byte>, post: seq<Byte>, k: nat, size: nat)
    requires Terminated(leb) && k + |leb| <= 6
    ensures ReadSize(pre + leb + post, |pre|, k, size) == Ok((size + SumFrom(leb, k), |pre| + |leb|))
    decreases |leb|
  {
    var s := pre + leb + post;
    assert s[|pre|] == leb[0];
    if |leb| > 1 {
      assert s == (pre + [leb[0]]) + leb[1..] + post;
      ReadSizeSums(pre + [leb[0]], leb[1..], post, k + 1, size + Shifted(leb[0] % 128, k));
    } else {
      assert SumFrom(leb[1..], k + 1) == 0;
    }
  }

  lemma AddMultiple(r: nat, q: nat)
    requires r < TWO32
    ensures (q * TWO32 + r) % TWO32 == r
  {
  }

  function Rest(leb: seq<Byte>): seq<Byte> { if leb == [] then [] else leb[1..] }

  function First(leb: seq<Byte>): nat { if leb == [] then 0 else leb[0] % 128 }

  lemma SumStep(leb: seq<Byte>, k: nat)
    ensures SumFrom(leb, k) == Shifted(First(leb), k) + SumFrom(Rest(leb), k + 1)
  {
  }

  lemma ValueStep(leb: seq<Byte>)
    ensures LebValue(leb) == First(leb) + 128 * LebValue(Rest(leb))
  {
  }

  /** Summing the shifted groups is reading the number modulo two to the thirty-two. */
  lemma SumIsValue(leb: seq<Byte>)
    requires |leb| <= 6
    ensures SumFrom(leb, 0) == LebValue(leb) % TWO32
  {
    var a := Rest(leb);
    var b := Rest(a);
    var c := Rest(b);
    var d := Rest(c);
    var e := Rest(d);
    assert Rest(e) == [];
    SumStep(leb, 0); SumStep(a, 1); SumStep(b, 2); SumStep(c, 3); SumStep(d, 4); SumStep(e, 5);
    ValueStep(leb); ValueStep(a); ValueStep(b); ValueStep(c); ValueStep(d); ValueStep(e);
    var q, r := First(d) / 16, First(d) % 16;
    var low := First(leb) + First(a) * 0x80 + First(b) * 0x4000 + First(c) * 0x20_0000 + r * 0x1000_0000;
    assert SumFrom(leb, 0) == low;
    assert LebValue(leb) == (q + First(e) * 8) * TWO32 + low;
    AddMultiple(low, q + First(e) * 8);
  }

  // ---- the walk -------------------------------------------------------------------------------------

  function Walk(s: seq<Byte>, offset: nat): Result<bool, WasmError>
    requires offset <= |s|
    decreases |s| - offset
  {
    if offset == |s| then Ok(false)
    else
      var size := ReadSize(s, offset + 1, 0, 0);
      if size.Err? then Err(size.error)
      else if s[offset] == START then Ok(true)
      else if size.value.1 <= offset || size.value.1 + size.value.0 > |s| then Err(TruncatedContent)
      else Walk(s, size.value.1 + size.value.0)
  }

  lemma {:induction false} ReadSizeMovesOn(s: seq<Byte>, offset: nat, k: nat, size: nat)
    ensures var r := ReadSize(s, offset, k, size); r.Ok? ==> offset < r.value.1 <= |s|
    decreases |s| - offset
  {
    if offset < |s| && s[offset] >= 128 && k < 5 {
      ReadSizeMovesOn(s, offset + 1, k + 1, size + Shifted(s[offset] % 128, k));
    }
  }

  // ---- sections ------------------------------------------------------------------------------------------

  datatype Section = Section(id: Byte, size: seq<Byte>, content: seq<Byte>)

  function EncodeSection(x: Section): seq<Byte> { [x.id] + x.size + x.content }

  function Encode(xs: seq<Section>): seq<Byte> { if xs == [] then [] else EncodeSection(xs[0]) + Encode(xs[1..]) }

  /** As the walk reads it: sizes of up to six bytes, taken modulo two to the thirty-two. */
  predicate Readable(x: Section) { ReadableSize(x.size) && |x.content| == LebValue(x.size) % TWO32 }

  /** As section 5.5.2 of the WebAssembly Core Specification writes it. */
  predicate WellFormed(x: Section) { StrictSize(x.size) && |x.content| == LebValue(x.size) }

  predicate AllReadable(xs: seq<Section>) { forall i :: 0 <= i < |xs| ==> Readable(xs[i]) }

  predicate HasStart(xs: seq<Section>) { exists i :: 0 <= i < |xs| && xs[i].id == START }

  lemma ReadSizeOf(pre: seq<Byte>, leb: seq<Byte>, post: seq<Byte>)
    requires ReadableSize(leb)
    ensures ReadSize(pre + leb + post, |pre|, 0, 0) == Ok((LebValue(leb) % TWO32, |pre| + |leb|))
  {
    ReadSizeSums(pre, leb, post, 0, 0);
    SumIsValue(leb);
  }

  lemma WalkStep(pre: seq<Byte>, x: Section, rest: seq<Byte>)
    requires Readable(x)
    ensures var s := pre + EncodeSection(x) + rest;
            Walk(s, |pre|) == if x.id == START then Ok(true) else Walk(s, |pre + EncodeSection(x)|)
  {
    var s := pre + EncodeSection(x) + rest;
    assert s == (pre + [x.id]) + x.size + (x.content + rest);
    ReadSizeOf(pre + [x.id], x.size, x.content + rest);
    assert s[|pre|] == x.id;
  }

  lemma HasStartTail(xs: seq<Section>)
    requires xs != []
    ensures HasStart(xs) <==> xs[0].id == START || HasStart(xs[1..])
  {
    if HasStart(xs) && xs[0].id != START {
      var i :| 0 <= i < |xs| && xs[i].id == START;
      assert xs[1..][i - 1] == xs[i];
    }
    if HasStart(xs[1..]) {
      var i :| 0 <= i < |xs[1..]| && xs[1..][i].id == START;
      assert xs[i + 1] == xs[1..][i];
    }
  }

  /** The walk from any point in front of readable sections. */
  lemma {:induction false} WalkSections(pre: seq<Byte>, xs: seq<Section>)
    requires AllReadable(xs)
    ensures Walk(pre + Encode(xs), |pre|) == Ok(HasStart(xs))
    decreases |xs|
  {
    if xs == [] {
      assert pre + Encode(xs) == pre;
    } else {
      var x, rest := xs[0], Encode(xs[1..]);
      assert Readable(x);
      Associate(pre, EncodeSection(x), rest);
      WalkStep(pre, x, rest);
      HasStartTail(xs);
      if x.id != START { WalkSections(pre + EncodeSection(x), xs[1..]); }
    }
  }

  predicate HeaderOk(header: seq<Byte>) { |header| == 8 && header[..4] == MAGIC }

  /** On every module of well-formed sections the answer is whether one of them is a start section. */
  lemma StartSectionFound(header: seq<Byte>, xs: seq<Section>)
    requires HeaderOk(header) && forall i :: 0 <= i < |xs| ==> WellFormed(xs[i])
    ensures Walk(header + Encode(xs), 8) == Ok(HasStart(xs))
  {
    forall i | 0 <= i < |xs| ensures Readable(xs[i]) {
      assert WellFormed(xs[i]);
    }
    WalkSections(header, xs);
  }

  // ---- and conversely ---------------------------------------------------------------------------------------

  lemma {:induction false} ReadSizeReads(s: seq<Byte>, offset: nat, k: nat, size: nat)
    requires offset <= |s| && k <= 5 && ReadSize(s, offset, k, size).Ok?
    ensures var next := ReadSize(s, offset, k, size).value.1;
            && offset < next <= |s| && Terminated(s[offset..next]) && next - offset <= 6 - k
    decreases |s| - offset
  {
    if s[offset] >= 128 {
      ReadSizeReads(s, offset + 1, k + 1, size + Shifted(s[offset] % 128, k));
      var next := ReadSize(s, offset, k, size).value.1;
      assert s[offset..next] == [s[offset]] + s[offset + 1..next];
    }
  }

  /** The section the walk reads at `offset`. */
  lemma SectionRead(s: seq<Byte>, offset: nat) returns (leb: seq<Byte>, next: nat)
    requires offset < |s| && Walk(s, offset).Ok?
    ensures ReadableSize(leb) && offset + 1 + |leb| == next <= |s| && s[offset + 1..next] == leb
    ensures s[offset] == START ==> Walk(s, offset) == Ok(true)
    ensures s[offset] != START ==>
              var end := next + LebValue(leb) % TWO32; end <= |s| && Walk(s, offset) == Walk(s, end)
  {
    next := ReadSize(s, offset + 1, 0, 0).value.1;
    ReadSizeReads(s, offset + 1, 0, 0);
    leb := s[offset + 1..next];
    assert s == s[..offset + 1] + leb + s[next..];
    ReadSizeOf(s[..offset + 1], leb, s[next..]);
  }

  /** The id and the size of a start section, then anything. */
  predicate AtStart(s: seq<Byte>) {
    s != [] && s[0] == START && exists n :: 1 < n <= |s| && ReadableSize(s[1..n])
  }

  /** The section at `offset`, as it is laid out, when it is no start section. */
  lemma SectionAt(s: seq<Byte>, offset: nat) returns (x: Section, end: nat)
    requires offset < |s| && s[offset] != START && Walk(s, offset).Ok?
    ensures offset < end <= |s| && Walk(s, offset) == Walk(s, end)
    ensures Readable(x) && x.id != START && s[offset..] == EncodeSection(x) + s[end..]
  {
    var leb, next := SectionRead(s, offset);
    end := next + LebValue(leb) % TWO32;
    x := Section(s[offset], leb, s[next..end]);
    SliceSection(s, offset, next, end, leb);
  }

  lemma StartAt(s: seq<Byte>, offset: nat)
    requires offset < |s| && s[offset] == START && Walk(s, offset).Ok?
    ensures Walk(s, offset) == Ok(true) && AtStart(s[offset..])
  {
    var leb, next := SectionRead(s, offset);
    SuffixAtStart(s, offset, next, leb);
  }

  /**
   * Whatever bytes follow the header: if the walk answers, it has read sections up to the
   * answer. "No" means the rest is readable sections without a start section; "yes" means
   * readable sections without one, then a start section's id and size.
   */
  lemma {:induction false} AnswerMeansSections(s: seq<Byte>, offset: nat) returns (xs: seq<Section>, suffix: seq<Byte>)
    requires offset <= |s| && Walk(s, offset).Ok?
    ensures AllReadable(xs) && !HasStart(xs) && s[offset..] == Encode(xs) + suffix
    ensures if Walk(s, offset).value then AtStart(suffix) else suffix == []
    decreases |s| - offset
  {
    xs, suffix := [], s[offset..];
    assert Encode([]) + suffix == suffix;
    if offset < |s| {
      if s[offset] == START {
        StartAt(s, offset);
      } else {
        var x, end := SectionAt(s, offset);
        var rest;
        rest, suffix := AnswerMeansSections(s, end);
        xs := [x] + rest;
        OneMoreSection(x, rest);
        Associate(EncodeSection(x), Encode(rest), suffix);
      }
    }
  }

  lemma SuffixAtStart(s: seq<Byte>, offset: nat, next: nat, leb: seq<Byte>)
    requires offset + 1 < next <= |s| && s[offset] == START && s[offset + 1..next] == leb && ReadableSize(leb)
    ensures AtStart(s[offset..])
  {
    assert s[offset..][1..next - offset] == leb;
  }

  lemma SliceSection(s: seq<Byte>, offset: nat, next: nat, end: nat, leb: seq<Byte>)
    requires offset + 1 <= next <= end <= |s| && s[offset + 1..next] == leb
    ensures s[offset..] == EncodeSection(Section(s[offset], leb, s[next..end])) + s[end..]
  {
  }

  lemma OneMoreSection(x: Section, rest: seq<Section>)
    requires Readable(x) && AllReadable(rest) && !HasStart(rest) && x.id != START
    ensures AllReadable([x] + rest) && !HasStart([x] + rest)
    ensures Encode([x] + rest) == EncodeSection(x) + Encode(rest)
  {
    assert ([x] + rest)[1..] == rest;
    HasStartTail([x] + rest);
  }

  lemma Associate(a: seq<Byte>, b: seq<Byte>, c: seq<Byte>)
    ensures a + (b + c) == (a + b) + c
  {
  }

  /** Not only well-formed sizes are taken: a sixth byte is read, and high bits are dropped. */
  lemma SizesAreLenient()
    ensures ReadSize([0x80, 0x80, 0x80, 0x80, 0x80, 0x00], 0, 0, 0) == Ok((0, 6))
    ensures !StrictSize([0x80, 0x80, 0x80, 0x80, 0x80, 0x00])
    ensures ReadSize([0x80, 0x80, 0x80, 0x80, 0x10], 0, 0, 0) == Ok((0, 5))
    ensures !StrictSize([0x80, 0x80, 0x80, 0x80, 0x10])
  {
    var long: seq<Byte> := [0x80, 0x80, 0x80, 0x80, 0x80, 0x00];
    var high: seq<Byte> := [0x80, 0x80, 0x80, 0x80, 0x10];
    assert [] + long + [] == long && [] + high + [] == high;
    ReadSizeSums([], long, [], 0, 0);
    ReadSizeSums([], high, [], 0, 0);
    SumIsValue(long);
    SumIsValue(high);
    ValueStep(high);
    ValueStep(high[1..]);
    ValueStep(high[2..]);
    ValueStep(high[3..]);
    ValueStep(high[4..]);
    ValueStep(long);
    ValueStep(long[1..]);
    ValueStep(long[2..]);
    ValueStep(long[3..]);
    ValueStep(long[4..]);
    ValueStep(long[5..]);
    assert LebValue(high) == TWO32 && LebValue(long) == 0;
  }

  // ---- the loops -----------------------------------------------------------------------------------------------

  /** Reads nothing out of range and stops on every input. */
  method HasWasmStartSection(payload: seq<Byte>) returns (r: Result<bool, WasmError>)
    ensures r == if |payload| < 8 then Err(TooShort)
                 else if payload[..4] != MAGIC then Err(BadMagic)
                 else Walk(payload, 8)
  {
    if |payload| < 8 { return Err(TooShort); }
    if payload[..4] != MAGIC { return Err(BadMagic); }
    var offset := 8;
    while offset < |payload|
      invariant offset <= |payload| && Walk(payload, offset) == Walk(payload, 8)
      decreases |payload| - offset
    {
      var sectionId := payload[offset];
      ghost var start := offset;
      offset := offset + 1;
      ReadSizeMovesOn(payload, offset, 0, 0);
      var size: nat, k: nat := 0, 0;
      while true
        invariant start < offset <= |payload| && k <= 5
        invariant ReadSize(payload, start + 1, 0, 0) == ReadSize(payload, offset, k, size)
        decreases |payload| - offset
      {
        if offset >= |payload| { return Err(TruncatedHeader); }
        var b := payload[offset];
        offset := offset + 1;
        size := size + Shifted(b % 128, k);
        if b < 128 { break; }
        k := k + 1;
        if k > 5 { return Err(InvalidLeb); }
      }
      if sectionId == START { return Ok(true); }
      offset := offset + size;
      if offset > |payload| { return Err(TruncatedContent); }
    }
    return Ok(false);
  }
}
