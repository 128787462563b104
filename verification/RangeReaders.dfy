/** The composed readers behind an opened media object: provider, size check, byte range. */
module RangeReaders {
  import opened Common

  type Bytes = seq<bv8>

  /** What a read reports beside its bytes. */
  datatype Signal = Fine | EOF | UnexpectedEOF | Failure

  /** How a provider announces the end of an object: by an empty read, together
      with the last bytes, or now one way and now the other. */
  datatype Style = Alone | Riding | Either

  /** A stored object being read. How much each read returns is the provider's
      choice; a reliable one never fails. */
  class Provider {
    const content: Bytes
    const style: Style
    const reliable: bool
    var pos: nat
    /** Whether the end of the object was announced together with bytes. */
    ghost var rode: bool

    ghost predicate Valid()
      reads this
    {
      && pos <= |content| && (rode ==> pos == |content| > 0)
      && (style.Alone? ==> !rode)
      && (style.Riding? && reliable && pos == |content| > 0 ==> rode)
    }

    constructor (content: Bytes, style: Style, reliable: bool)
      ensures Valid() && this.content == content && this.style == style && this.reliable == reliable
      ensures pos == 0 && !rode
    {
      this.content, this.style, this.reliable := content, style, reliable;
      pos, rode := 0, false;
    }

    method Read(size: nat) returns (data: Bytes, signal: Signal)
      requires Valid()
      modifies this
      ensures Valid() && old(pos) <= pos
      ensures data == content[old(pos)..pos] && |data| <= size
      ensures signal == Fine && size > 0 ==> |data| > 0
      ensures signal == EOF ==> pos == |content|
      ensures signal != UnexpectedEOF && (reliable ==> signal != Failure)
      ensures rode <==> old(rode) || (signal == EOF && data != [])
    {
      var n: nat :| n <= size && pos + n <= |content| && (n == 0 ==> size == 0 || pos == |content|);
      data := content[pos..pos + n];
      pos := pos + n;
      signal := Fine;
      if pos == |content| && (if n > 0 then !style.Alone? else size > 0) {
        signal := EOF;
        if n > 0 && style.Either? {
          if * { signal := Fine; }
        }
      }
      if !reliable {
        if * { signal := Failure; }
      }
      rode := rode || (signal == EOF && data != []);
    }
  }

  /** Caps an object at its recorded size and reports one that ends early. */
  class SizeCheckedReader {
    const provider: Provider
    const size: nat
    var remain: int
    var marked: bool
    /** How often the short-object callback ran. */
    var damaged: nat

    ghost predicate Valid()
      reads this, provider
    {
      && provider.Valid() && remain == size - provider.pos >= 0
      && damaged == (if marked then 1 else 0)
      && (marked ==> provider.pos == |provider.content| < size)
    }

    constructor (provider: Provider, size: nat)
      requires provider.Valid() && provider.pos == 0
      ensures Valid() && this.provider == provider && this.size == size && !marked
    {
      this.provider, this.size := provider, size;
      remain, marked, damaged := size, false, 0;
    }

    method Read(size: nat) returns (data: Bytes, signal: Signal)
      requires Valid()
      modifies this, provider
      ensures Valid() && old(provider.pos) <= provider.pos
      ensures data == provider.content[old(provider.pos)..provider.pos] && |data| <= size
      ensures signal == Fine && size > 0 ==> |data| > 0
      ensures signal == EOF ==> provider.pos == this.size || (old(marked) && data == [])
      ensures signal == UnexpectedEOF ==> marked && !old(marked)
      ensures signal != UnexpectedEOF ==> marked == old(marked)
      ensures provider.rode == old(provider.rode) ||
              (provider.rode && data != [] && signal == if provider.pos < this.size then UnexpectedEOF else EOF)
      ensures signal == UnexpectedEOF && data != [] ==> provider.rode
      ensures provider.reliable ==> signal != Failure
    {
      if remain <= 0 { return [], EOF; }
      var want := size;
      if size > remain { want := remain; }
      data, signal := provider.Read(want);
      remain := remain - |data|;
      if signal == EOF && remain > 0 && !marked {
        marked := true;
        damaged := damaged + 1;
        return data, UnexpectedEOF;
      }
    }

    /** Discards up to `count` bytes, in chunks of any size the reader likes.
        A signal that arrives with the last wanted byte is dropped. */
    method CopyN(count: nat, buffer: nat) returns (copied: nat, signal: Signal)
      requires Valid() && buffer > 0
      modifies this, provider
      ensures Valid() && provider.pos == old(provider.pos) + copied && copied <= count
      ensures signal == Fine <==> copied == count
      ensures signal == EOF ==> provider.pos == size || old(marked)
      ensures signal == UnexpectedEOF ==> marked && !old(marked)
      ensures marked && !old(marked) && signal == Fine ==> provider.rode
      ensures old(marked) ==> marked
      ensures provider.rode && !old(provider.rode) ==> copied > 0 && (provider.pos < size ==> marked)
      ensures old(provider.rode) ==> provider.rode
      ensures provider.reliable ==> signal != Failure
    {
      copied, signal := 0, Fine;
      while copied < count
        invariant Valid() && provider.pos == old(provider.pos) + copied && copied <= count
        invariant signal == Fine && marked == old(marked) && provider.rode == old(provider.rode)
        decreases count - copied
      {
        var want := if count - copied < buffer then count - copied else buffer;
        var data, seen := Read(want);
        copied := copied + |data|;
        if seen != Fine {
          if copied < count { signal := seen; }
          return;
        }
      }
    }
  }

  /** Delivers one byte range of the reader below it. */
  class RangeReader {
    const reader: SizeCheckedReader
    const start: nat
    const end: nat
    var skip: int
    var remain: int

    ghost predicate Valid()
      reads this, reader, reader.provider
    {
      && reader.Valid() && start <= end <= reader.size
      && 0 <= skip && 0 <= remain
      && reader.provider.pos + skip + remain == end
      && (skip > 0 ==> remain == end - start)
      && remain <= end - start
    }

    constructor (reader: SizeCheckedReader, start: nat, end: nat)
      requires reader.Valid() && reader.provider.pos == 0 && start <= end <= reader.size
      ensures Valid() && this.reader == reader && this.start == start && this.end == end
      ensures skip == start && remain == end - start
    {
      this.reader, this.start, this.end := reader, start, end;
      skip, remain := start, end - start;
    }

    /** The bytes handed out so far. */
    ghost function Delivered(): Bytes
      reads this, reader, reader.provider
      requires Valid()
    {
      if skip > 0 then [] else reader.provider.content[start..reader.provider.pos]
    }

    /** The bytes asked for. */
    ghost function Wanted(): Bytes
      reads this, reader, reader.provider
      requires Valid() && end <= |reader.provider.content|
    {
      reader.provider.content[start..end]
    }

    /** The object ends exactly where the range starts, and its end was
        announced with the last skipped byte, where nobody looked. */
    ghost predicate Overlooked()
      reads this, reader, reader.provider
    {
      reader.provider.rode && |reader.provider.content| == start < end
    }

    /** What holds as long as no read has signalled anything. */
    ghost predicate Quiet()
      reads this, reader, reader.provider
    {
      && Valid()
      && (reader.marked ==> reader.provider.rode && skip == 0 && reader.provider.pos == start)
      && (reader.provider.rode ==> reader.marked || reader.provider.pos == reader.size)
    }

    /** What the first signal means. */
    ghost predicate Settled(signal: Signal)
      reads this, reader, reader.provider
    {
      && Valid() && (reader.provider.reliable ==> signal != Failure)
      && var length := |reader.provider.content|;
      && (signal == EOF && !Overlooked() ==> end <= length && Delivered() == Wanted())
      && (signal == EOF && Overlooked() ==> Delivered() == [])
      && (signal == EOF && reader.marked ==> reader.provider.rode)
      && (signal == UnexpectedEOF ==>
            reader.marked && Delivered() == if length < start then [] else reader.provider.content[start..length])
      && (signal != Failure ==>
            (signal == UnexpectedEOF <==>
             || (length < end && !Overlooked())
             || (reader.provider.rode && start < length == end < reader.size)))
    }

    method SkipToStart(buffer: nat) returns (signal: Signal)
      requires Valid() && buffer > 0
      modifies this, reader, reader.provider
      ensures Valid() && Delivered() == old(Delivered()) && remain == old(remain)
      ensures signal == Fine ==> skip == 0
      ensures old(reader.marked) ==> reader.marked
      ensures old(Quiet()) && signal == Fine ==> Quiet()
      ensures old(Quiet()) && signal != Fine ==> Settled(signal)
    {
      signal := Fine;
      while skip > 0
        invariant Valid() && Delivered() == old(Delivered()) && remain == old(remain) && signal == Fine
        invariant old(reader.marked) ==> reader.marked
        invariant old(Quiet()) ==> Quiet()
        decreases skip
      {
        var n;
        n, signal := reader.CopyN(skip, buffer);
        skip := skip - n;
        if signal != Fine { return; }
      }
    }

    method Read(size: nat, buffer: nat) returns (data: Bytes, signal: Signal)
      requires Valid() && buffer > 0
      modifies this, reader, reader.provider
      ensures Valid() && Delivered() == old(Delivered()) + data && |data| <= size
      ensures remain == old(remain) - |data|
      ensures signal == Fine && size > 0 ==> |data| > 0
      ensures old(reader.marked) ==> reader.marked
      ensures old(Quiet()) && signal == Fine ==> Quiet()
      ensures old(Quiet()) && signal != Fine ==> Settled(signal)
    {
      signal := SkipToStart(buffer);
      if signal != Fine { return [], signal; }
      if remain <= 0 { return [], EOF; }
      var want := size;
      if size > remain { want := remain; }
      data, signal := reader.Read(want);
      remain := remain - |data|;
    }
  }

  /* ---------- opening and reading to the end ---------- */

  /** The half-open byte range asked for: the end is given inclusively.  A
      request is refused exactly when it reaches outside the object or ends
      more than one byte before it starts. */
  function NormalizeRange(rangeStart: Option<int>, rangeEnd: Option<int>, size: int): (r: Option<(nat, nat)>)
    ensures r.Some? && rangeStart.Some? ==> r.value.0 == rangeStart.value
    ensures r.Some? && rangeStart.None? ==> r.value.0 == 0
    ensures r.Some? && rangeEnd.Some? ==> r.value.1 - 1 == rangeEnd.value
    ensures r.Some? && rangeEnd.None? ==> r.value.1 == size
    ensures r.Some? ==> r.value.0 <= r.value.1 <= size
    ensures size >= 0 ==>
              (r.None? <==>
               || (rangeStart.Some? && (rangeStart.value < 0 || rangeStart.value > size))
               || (rangeEnd.Some? && (rangeEnd.value >= size || rangeEnd.value < -1))
               || (rangeStart.Some? && rangeEnd.Some? && rangeEnd.value < rangeStart.value - 1))
  {
    var start := if rangeStart.Some? then rangeStart.value else 0;
    var end := if rangeEnd.Some? then rangeEnd.value + 1 else size;
    if start < 0 || end < start || end > size then None else Some((start, end))
  }

  datatype Reader = Whole(checked: SizeCheckedReader) | Part(range: RangeReader)

  method Open(provider: Provider, size: nat, rangeStart: Option<int>, rangeEnd: Option<int>) returns (r: Option<Reader>)
    requires provider.Valid() && provider.pos == 0 && !provider.rode
    ensures r.None? <==> NormalizeRange(rangeStart, rangeEnd, size).None?
    ensures r.Some? ==>
              var (start, end) := NormalizeRange(rangeStart, rangeEnd, size).value;
              match r.value
              case Whole(checked) =>
                && start == 0 && end == size && fresh(checked)
                && checked.Valid() && checked.provider == provider && checked.size == size && !checked.marked
              case Part(range) =>
                && (start, end) != (0, size) && fresh(range) && fresh(range.reader)
                && range.Quiet() && range.reader.provider == provider && range.reader.size == size
                && range.start == start && range.end == end && range.Delivered() == []
  {
    var checked := new SizeCheckedReader(provider, size);
    var bounds := NormalizeRange(rangeStart, rangeEnd, size);
    if bounds.None? { return None; }
    var (start, end) := bounds.value;
    if start == 0 && end == size { return Some(Whole(checked)); }
    var range := new RangeReader(checked, start, end);
    return Some(Part(range));
  }

  /** Reads a range to its first signal, with buffers of any positive size; the
      chunks skipped meanwhile have sizes of their own. */
  method ReadRange(range: RangeReader, buffers: nat -> nat, chunks: nat -> nat) returns (data: Bytes, signal: Signal)
    requires range.Quiet() && range.Delivered() == []
    requires forall k :: buffers(k) > 0
    requires forall k :: chunks(k) > 0
    modifies range, range.reader, range.reader.provider
    ensures range.Settled(signal) && signal != Fine
    ensures data == range.Delivered()
  {
    data, signal := [], Fine;
    var k := 0;
    while signal == Fine
      invariant range.Valid() && data == range.Delivered()
      invariant if signal == Fine then range.Quiet() else range.Settled(signal)
      decreases range.remain, if signal == Fine then 1 else 0
    {
      var more;
      more, signal := range.Read(buffers(k), chunks(k));
      data := data + more;
      k := k + 1;
    }
  }

  /** Reads the whole object to its first signal. */
  method ReadWhole(checked: SizeCheckedReader, buffers: nat -> nat) returns (data: Bytes, signal: Signal)
    requires checked.Valid() && checked.provider.pos == 0 && !checked.marked
    requires forall k :: buffers(k) > 0
    modifies checked, checked.provider
    ensures checked.Valid() && data == checked.provider.content[..checked.provider.pos] && signal != Fine
    ensures signal == EOF ==> checked.provider.pos == checked.size && !checked.marked
    ensures signal == UnexpectedEOF ==> checked.marked && checked.provider.pos == |checked.provider.content|
    ensures checked.provider.reliable ==> signal != Failure
  {
    data, signal := [], Fine;
    var k := 0;
    while signal == Fine
      invariant checked.Valid() && data == checked.provider.content[..checked.provider.pos]
      invariant signal != UnexpectedEOF ==> !checked.marked
      invariant signal == EOF ==> checked.provider.pos == checked.size
      invariant signal == UnexpectedEOF ==> checked.marked
      invariant checked.provider.reliable ==> signal != Failure
      decreases checked.remain, if signal == Fine then 1 else 0
    {
      var more;
      more, signal := checked.Read(buffers(k));
      data := data + more;
      k := k + 1;
    }
  }

  /** What reading the range of an object may come to. */
  predicate Reading(content: Bytes, style: Style, reliable: bool, size: nat, start: nat, end: nat,
                    data: Bytes, signal: Signal, damaged: nat)
  {
    && signal in {EOF, UnexpectedEOF, Failure} && damaged <= 1 && (damaged == 1 ==> |content| < size)
    && (reliable ==> signal != Failure)
    && (signal == EOF ==>
          || (start <= end <= |content| && data == content[start..end])
          || (data == [] && !style.Alone? && 0 < start == |content| < end))
    && (signal == UnexpectedEOF ==> damaged == 1 && data == if |content| < start then [] else content[start..])
    && (signal != Failure && style.Alone? ==>
          && (signal == UnexpectedEOF <==> |content| < end)
          && (damaged == 1 <==> |content| < end))
    && (reliable && style.Riding? ==>
          (signal == UnexpectedEOF <==>
           || (|content| < end && !(0 < start == |content|))
           || start < |content| == end < size))
  }

  /** The bytes asked for, no more and no fewer: those from `rangeStart`, or the
      beginning, up to and including `rangeEnd`, or the last. */
  predicate Delivers(content: Bytes, size: nat, rangeStart: Option<int>, rangeEnd: Option<int>, data: Bytes) {
    var first := if rangeStart.Some? then rangeStart.value else 0;
    var last := if rangeEnd.Some? then rangeEnd.value else size - 1;
    && |data| == last - first + 1
    && forall i | first <= i <= last :: 0 <= i < |content| && data[i - first] == content[i]
  }

  lemma ReadingDelivers(content: Bytes, style: Style, reliable: bool, size: nat,
                        rangeStart: Option<int>, rangeEnd: Option<int>, data: Bytes, signal: Signal, damaged: nat)
    requires NormalizeRange(rangeStart, rangeEnd, size).Some? && signal == EOF
    requires var (start, end) := NormalizeRange(rangeStart, rangeEnd, size).value;
             Reading(content, style, reliable, size, start, end, data, signal, damaged)
    ensures || Delivers(content, size, rangeStart, rangeEnd, data)
            || (data == [] && !style.Alone? && rangeStart == Some(|content|) && 0 < |content| < size)
  {}

  /** Opening and reading any range of any object. Unless a read fails: a clean
      end means every byte of the range, except when the end was overlooked
      while skipping; a provider that announces ends alone turns every object
      that stops short of the range into `UnexpectedEOF` after the bytes it
      has, and only then marks it damaged, once. */
  method OpenAndRead(content: Bytes, style: Style, reliable: bool, size: nat,
                     rangeStart: Option<int>, rangeEnd: Option<int>,
                     buffers: nat -> nat, chunks: nat -> nat)
    returns (data: Bytes, signal: Signal, damaged: nat)
    requires NormalizeRange(rangeStart, rangeEnd, size).Some?
    requires forall k :: buffers(k) > 0
    requires forall k :: chunks(k) > 0
    ensures var (start, end) := NormalizeRange(rangeStart, rangeEnd, size).value;
            Reading(content, style, reliable, size, start, end, data, signal, damaged)
    ensures signal == EOF ==>
              || Delivers(content, size, rangeStart, rangeEnd, data)
              || (data == [] && !style.Alone? && rangeStart == Some(|content|) && 0 < |content| < size)
  {
    var provider := new Provider(content, style, reliable);
    var r := Open(provider, size, rangeStart, rangeEnd);
    match r.value {
      case Whole(checked) =>
        data, signal := ReadWhole(checked, buffers);
        damaged := checked.damaged;
      case Part(range) =>
        data, signal := ReadRange(range, buffers, chunks);
        damaged := range.reader.damaged;
    }
    if signal == EOF {
      ReadingDelivers(content, style, reliable, size, rangeStart, rangeEnd, data, signal, damaged);
    }
  }

  /** The law that a clean end means the whole range does fail, through a
      provider whose ends ride with the last bytes: exactly for a range that
      starts where the object ends short of it, whatever the buffers. */
  lemma OverlookedEnd(content: Bytes, size: nat, start: nat, end: nat, data: Bytes, signal: Signal, damaged: nat)
    requires start <= end <= size && Reading(content, Riding, true, size, start, end, data, signal, damaged)
    ensures signal == EOF && !(end <= |content| && data == content[start..end]) <==> 0 < start == |content| < end
    ensures 0 < start == |content| < end ==> signal == EOF && data == []
  {}

  /** Such an input: a one-byte object recorded as two bytes, read from its second byte on. */
  lemma OverlookedByte(data: Bytes, signal: Signal, damaged: nat)
    requires Reading([7], Riding, true, 2, 1, 2, data, signal, damaged)
    ensures NormalizeRange(Some(1), None, 2) == Some((1, 2)) && signal == EOF && data == []
  {
    OverlookedEnd([7], 2, 1, 2, data, signal, damaged);
  }
}
