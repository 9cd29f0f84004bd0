/**
 The event-stream splitter of the Mira client: blocks are cut at the first
 blank-line separator, LF LF or CR LF CR LF, as text arrives in chunks, until a
 block ends the stream.
 */
module SseSplitter {
  import opened Options

  datatype Separator = Separator(index: nat, length: nat)

  const LF := "\n\n"
  const CRLF := "\r\n\r\n"

  predicate At(buffer: string, index: int, pattern: string) {
    0 <= index && index + |pattern| <= |buffer| && buffer[index..index + |pattern|] == pattern
  }

  /** The first position of `pattern` from `from` on. */
  function IndexFrom(buffer: string, pattern: string, from: nat): (r: Option<nat>)
    ensures r.Some? ==> from <= r.value && At(buffer, r.value, pattern)
    ensures forall k :: from <= k && (r.None? || k < r.value) ==> !At(buffer, k, pattern)
    decreases |buffer| - from
  {
    if from + |pattern| > |buffer| then None
    else if buffer[from..from + |pattern|] == pattern then Some(from)
    else if from < |buffer| then IndexFrom(buffer, pattern, from + 1)
    else None
  }

  /** The earliest blank line of either form, if there is one. */
  function FindSseSeparator(buffer: string): (r: Option<Separator>)
    ensures r.None? <==> forall k :: !At(buffer, k, "\n\n") && !At(buffer, k, "\r\n\r\n")
    ensures r.Some? ==> forall k: int :: k < r.value.index ==> !At(buffer, k, "\n\n") && !At(buffer, k, "\r\n\r\n")
    ensures r.Some? ==> (r.value.length == 2 || r.value.length == 4) && r.value.index + r.value.length <= |buffer|
    ensures r.Some? ==> (r.value.length == 2 <==> At(buffer, r.value.index, "\n\n"))
    ensures r.Some? ==> (r.value.length == 4 <==> At(buffer, r.value.index, "\r\n\r\n"))
  {
    var lf := IndexFrom(buffer, LF, 0);
    var crlf := IndexFrom(buffer, CRLF, 0);
    if lf.None? && crlf.None? then None
    else if lf.None? then Some(Separator(crlf.value, 4))
    else if crlf.None? then Some(Separator(lf.value, 2))
    else if lf.value < crlf.value then Some(Separator(lf.value, 2))
    else
      OneAt(buffer, crlf.value);
      Some(Separator(crlf.value, 4))
  }

  /** The blocks of a text up to the one that ends the stream, and what is left. */
  datatype Parsed = Parsed(blocks: seq<string>, rest: string, done: bool)

  function Split(buffer: string, ends: string -> bool): Parsed
    decreases |buffer|
  {
    var sep := FindSseSeparator(buffer);
    if sep.None? then Parsed([], buffer, false)
    else
      var block := buffer[..sep.value.index];
      var rest := buffer[sep.value.index + sep.value.length..];
      if ends(block) then Parsed([block], rest, true)
      else
        var more := Split(rest, ends);
        Parsed([block] + more.blocks, more.rest, more.done)
  }

  function Join(chunks: seq<string>): string {
    if chunks == [] then "" else Join(chunks[..|chunks| - 1]) + chunks[|chunks| - 1]
  }

  // ---------------------------------------------------------------------------
  // What a split is
  // ---------------------------------------------------------------------------

  /** No separator of either form starts before `end`. */
  ghost predicate Unbroken(text: string, end: int) {
    forall k: int :: k < end ==> !At(text, k, "\n\n") && !At(text, k, "\r\n\r\n")
  }

  /** `parsed` cuts `text` at the earliest separator, again and again, up to the
      first block that ends the stream; what is left of a stream that has not
      ended holds no separator. */
  ghost predicate Parses(text: string, parsed: Parsed, ends: string -> bool)
    decreases |parsed.blocks|, 0
  {
    if parsed.blocks == [] then text == parsed.rest && !parsed.done && Unbroken(text, |text|)
    else
      var block := parsed.blocks[0];
      var later := Parsed(parsed.blocks[1..], parsed.rest, parsed.done);
      && (CutsAt(text, block, "\n\n", later, ends) || CutsAt(text, block, "\r\n\r\n", later, ends))
      && Unbroken(text, |block|)
  }

  ghost predicate CutsAt(text: string, block: string, separator: string, later: Parsed, ends: string -> bool)
    decreases |later.blocks|, 1
  {
    && block + separator <= text
    && var rest := text[|block| + |separator|..];
       if ends(block) then later == Parsed([], rest, true) else Parses(rest, later, ends)
  }

  /** The batch split is the only result of that form. */
  lemma {:induction false} SplitParses(text: string, parsed: Parsed, ends: string -> bool)
    ensures Parses(text, parsed, ends) <==> parsed == Split(text, ends)
    decreases |text|
  {
    var sep := FindSseSeparator(text);
    if parsed.blocks == [] {
      assert sep.Some? ==> At(text, sep.value.index, if sep.value.length == 2 then "\n\n" else "\r\n\r\n");
    } else if sep.None? {
      CutIsAt(text, parsed.blocks[0], "\n\n", Parsed(parsed.blocks[1..], parsed.rest, parsed.done), ends);
      CutIsAt(text, parsed.blocks[0], "\r\n\r\n", Parsed(parsed.blocks[1..], parsed.rest, parsed.done), ends);
    } else {
      var block := parsed.blocks[0];
      var later := Parsed(parsed.blocks[1..], parsed.rest, parsed.done);
      assert parsed.blocks == [block] + later.blocks;
      EarliestCut(text, block, later, ends);
      if block == text[..sep.value.index] {
        var rest := text[sep.value.index + sep.value.length..];
        if !ends(block) {
          SplitParses(rest, later, ends);
        }
        assert forall more: seq<string> :: ([block] + more)[1..] == more;
      }
    }
  }

  lemma EarliestCut(text: string, block: string, later: Parsed, ends: string -> bool)
    requires FindSseSeparator(text).Some?
    ensures var sep := FindSseSeparator(text).value; var rest := text[sep.index + sep.length..];
      (CutsAt(text, block, "\n\n", later, ends) || CutsAt(text, block, "\r\n\r\n", later, ends)) && Unbroken(text, |block|)
      <==> block == text[..sep.index] && (if ends(block) then later == Parsed([], rest, true) else Parses(rest, later, ends))
  {
    var sep := FindSseSeparator(text).value;
    var pattern := if sep.length == 2 then "\n\n" else "\r\n\r\n";
    CutIsAt(text, block, "\n\n", later, ends);
    CutIsAt(text, block, "\r\n\r\n", later, ends);
    OneAt(text, sep.index);
    assert text == text[..sep.index] + pattern + text[sep.index + sep.length..];
  }

  lemma CutIsAt(text: string, block: string, separator: string, later: Parsed, ends: string -> bool)
    ensures CutsAt(text, block, separator, later, ends) ==> At(text, |block|, separator) && block == text[..|block|]
  {
    if block + separator <= text {
      assert text[..|block|] == (block + separator)[..|block|] == block;
      assert text[|block|..|block| + |separator|] == (block + separator)[|block|..] == separator;
    }
  }

  // ---------------------------------------------------------------------------
  // A found separator stays the first one
  // ---------------------------------------------------------------------------

  lemma AtMore(buffer: string, more: string, index: int, pattern: string)
    requires index + |pattern| <= |buffer|
    ensures At(buffer + more, index, pattern) <==> At(buffer, index, pattern)
  {
    if 0 <= index {
      assert (buffer + more)[index..index + |pattern|] == buffer[index..index + |pattern|];
    }
  }

  /** LF LF cannot end inside a CR LF CR LF that starts before it: a separator
      found in a prefix is still the first one when more text follows. */
  lemma {:induction false} SeparatorStays(buffer: string, more: string)
    requires FindSseSeparator(buffer).Some?
    ensures FindSseSeparator(buffer + more) == FindSseSeparator(buffer)
  {
    var sep := FindSseSeparator(buffer).value;
    var pattern := if sep.length == 2 then LF else CRLF;
    assert At(buffer, sep.index, pattern);
    NothingEarlier(buffer, more, sep, LF);
    NothingEarlier(buffer, more, sep, CRLF);
    AtMore(buffer, more, sep.index, pattern);
    assert At(buffer + more, sep.index, pattern);
    OneAt(buffer + more, sep.index);
  }

  lemma AtReads(buffer: string, index: int, pattern: string, offset: nat)
    requires offset < |pattern|
    ensures At(buffer, index, pattern) ==> index + offset < |buffer| && buffer[index + offset] == pattern[offset]
  {
    if At(buffer, index, pattern) {
      assert buffer[index..index + |pattern|][offset] == buffer[index + offset];
    }
  }

  lemma OneAt(buffer: string, index: int)
    ensures !(At(buffer, index, LF) && At(buffer, index, CRLF))
  {
    AtReads(buffer, index, LF, 0);
    AtReads(buffer, index, CRLF, 0);
  }

  lemma NothingEarlier(buffer: string, more: string, sep: Separator, pattern: string)
    requires FindSseSeparator(buffer) == Some(sep) && (pattern == LF || pattern == CRLF)
    ensures forall k: int :: k < sep.index ==> !At(buffer + more, k, pattern)
  {
    var whole := buffer + more;
    forall k: int | k < sep.index ensures !At(whole, k, pattern) {
      if At(whole, k, pattern) {
        if k + |pattern| <= |buffer| {
          AtMore(buffer, more, k, pattern);
        } else {
          Straddles(buffer, more, sep, pattern, k);
        }
      }
    }
  }

  /** A match that starts before the separator but ends in the new text could
      only be a CR LF CR LF around an LF LF, which their characters exclude. */
  lemma Straddles(buffer: string, more: string, sep: Separator, pattern: string, k: int)
    requires FindSseSeparator(buffer) == Some(sep) && (pattern == LF || pattern == CRLF)
    requires 0 <= k < sep.index && k + |pattern| > |buffer|
    ensures !At(buffer + more, k, pattern)
  {
    var whole := buffer + more;
    assert k + 1 == sep.index && sep.length == 2 && pattern == CRLF;
    assert At(buffer, sep.index, LF);
    AtReads(buffer, sep.index, LF, 1);
    AtReads(whole, k, CRLF, 2);
  }

  /** What `first` leaves, continued with more text. */
  function Continue(first: Parsed, more: string, ends: string -> bool): Parsed {
    if first.done then Parsed(first.blocks, first.rest + more, true)
    else
      var second := Split(first.rest + more, ends);
      Parsed(first.blocks + second.blocks, second.rest, second.done)
  }

  function After(block: string, rest: Parsed): Parsed {
    Parsed([block] + rest.blocks, rest.rest, rest.done)
  }

  lemma ContinueAfter(block: string, first: Parsed, more: string, ends: string -> bool)
    ensures Continue(After(block, first), more, ends) == After(block, Continue(first, more, ends))
  {
    if !first.done {
      var second := Split(first.rest + more, ends);
      assert [block] + (first.blocks + second.blocks) == [block] + first.blocks + second.blocks;
    }
  }

  /** Splitting a prefix first, and then what is left together with the rest. */
  lemma {:induction false} SplitMore(buffer: string, more: string, ends: string -> bool)
    ensures Split(buffer + more, ends) == Continue(Split(buffer, ends), more, ends)
    decreases |buffer|
  {
    var sep := FindSseSeparator(buffer);
    if sep.None? {
      var all := Split(buffer + more, ends);
      assert [] + all.blocks == all.blocks;
    } else {
      SeparatorStays(buffer, more);
      var block := buffer[..sep.value.index];
      var rest := buffer[sep.value.index + sep.value.length..];
      assert (buffer + more)[..sep.value.index] == block;
      assert (buffer + more)[sep.value.index + sep.value.length..] == rest + more;
      if !ends(block) {
        SplitMore(rest, more, ends);
        ContinueAfter(block, Split(rest, ends), more, ends);
        assert Split(buffer, ends) == After(block, Split(rest, ends));
      }
    }
  }

  // ---------------------------------------------------------------------------
  // The read loop
  // ---------------------------------------------------------------------------

  /** The read loop of the client: however the text is cut into chunks, the blocks
      are those of one batch split of the whole text, and what was neither read
      nor split is what the batch split leaves over. */
  method Complete(chunks: seq<string>, ends: string -> bool) returns (blocks: seq<string>, buffer: string, done: bool, read: nat)
    ensures read <= |chunks| && (!done ==> read == |chunks|)
    ensures Parsed(blocks, buffer + Join(chunks[read..]), done) == Split(Join(chunks), ends)
  {
    blocks, buffer, done, read := [], "", false, 0;
    while !done && read < |chunks|
      invariant read <= |chunks|
      invariant Split(Join(chunks[..read]), ends) == Parsed(blocks, buffer, done)
      decreases |chunks| - read
    {
      ghost var before := Join(chunks[..read]);
      SplitMore(before, chunks[read], ends);
      assert chunks[..read + 1][..read] == chunks[..read];
      ghost var seen := blocks;
      buffer := buffer + chunks[read];
      read := read + 1;
      var cut;
      cut, buffer, done := TakeBlocks(buffer, ends);
      blocks := blocks + cut;
    }
    ReadThenRest(chunks, read);
    SplitMore(Join(chunks[..read]), Join(chunks[read..]), ends);
    if !done {
      assert chunks[..read] == chunks && Join(chunks[read..]) == "";
      assert buffer + "" == buffer;
    }
  }

  /** The inner loop: cut blocks off the buffer while it holds a separator. */
  method TakeBlocks(text: string, ends: string -> bool) returns (blocks: seq<string>, buffer: string, done: bool)
    ensures Parsed(blocks, buffer, done) == Split(text, ends)
  {
    blocks, buffer, done := [], text, false;
    var sep := FindSseSeparator(buffer);
    while !done && sep.Some?
      invariant sep == FindSseSeparator(buffer)
      invariant Split(text, ends)
             == if done then Parsed(blocks, buffer, true)
                else Parsed(blocks + Split(buffer, ends).blocks, Split(buffer, ends).rest, Split(buffer, ends).done)
      decreases |buffer|, if done then 0 else 1
    {
      var block := buffer[..sep.value.index];
      ghost var ahead := Split(buffer, ends);
      buffer := buffer[sep.value.index + sep.value.length..];
      assert blocks + ahead.blocks == blocks + [block] + ahead.blocks[1..];
      blocks := blocks + [block];
      done := ends(block);
      sep := FindSseSeparator(buffer);
    }
  }

  lemma {:induction false} ReadThenRest(chunks: seq<string>, read: nat)
    requires read <= |chunks|
    ensures Join(chunks) == Join(chunks[..read]) + Join(chunks[read..])
  {
    if read == |chunks| {
      assert chunks[..read] == chunks;
    } else {
      var n := |chunks| - 1;
      ReadThenRest(chunks[..n], read);
      assert chunks[..n][..read] == chunks[..read] && chunks[..n][read..] == chunks[read..][..n - read];
    }
  }

  /** Two ways of cutting the same text give the same blocks. */
  lemma {:induction false} ChunksDoNotMatter(chunks: seq<string>, others: seq<string>, ends: string -> bool)
    requires Join(chunks) == Join(others)
    ensures Incremental(chunks, ends).blocks == Incremental(others, ends).blocks
    ensures Incremental(chunks, ends).done == Incremental(others, ends).done
    ensures !Incremental(chunks, ends).done ==> Incremental(chunks, ends).rest == Incremental(others, ends).rest
  {
    IncrementalIsBatch(chunks, ends);
    IncrementalIsBatch(others, ends);
  }

  /** Chunk by chunk, reading no further once done. */
  function Incremental(chunks: seq<string>, ends: string -> bool): Parsed {
    if chunks == [] then Parsed([], "", false)
    else
      var before := Incremental(chunks[..|chunks| - 1], ends);
      if before.done then before
      else
        var next := Split(before.rest + chunks[|chunks| - 1], ends);
        Parsed(before.blocks + next.blocks, next.rest, next.done)
  }

  lemma {:induction false} IncrementalIsBatch(chunks: seq<string>, ends: string -> bool)
    ensures var batch := Split(Join(chunks), ends); var read := Incremental(chunks, ends);
      read.blocks == batch.blocks && read.done == batch.done && (!read.done ==> read.rest == batch.rest)
  {
    if chunks != [] {
      var n := |chunks| - 1;
      IncrementalIsBatch(chunks[..n], ends);
      SplitMore(Join(chunks[..n]), chunks[n], ends);
    }
  }
}
