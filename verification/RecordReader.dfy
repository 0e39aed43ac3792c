/** Newline framing of provider logs with a bounded record length (internal/adapters/adapter.go). */
module RecordReader {
  import opened Wrappers

  newtype byte = x: int | 0 <= x < 0x100

  const NEWLINE: byte := 10

  /** The end of the record that starts at `from`: just after its newline, or the end of the file. */
  function LineEnd(log: seq<byte>, from: nat): (end: nat)
    requires from <= |log|
    ensures from <= end <= |log|
    ensures end == from ==> from == |log|
    ensures forall k :: from <= k < end - 1 ==> log[k] != NEWLINE
    ensures from < end < |log| ==> log[end - 1] == NEWLINE
    decreases |log| - from
  {
    if from == |log| then from
    else if log[from] == NEWLINE then from + 1
    else LineEnd(log, from + 1)
  }

  predicate Terminated(log: seq<byte>, from: nat)
    requires from <= |log|
  {
    var end := LineEnd(log, from);
    from < end && log[end - 1] == NEWLINE
  }

  /** A record found in a file is found unchanged in every extension of the file. */
  lemma LineEndStable(log: seq<byte>, more: seq<byte>, from: nat)
    requires from <= |log| && Terminated(log, from)
    ensures Terminated(log + more, from) && LineEnd(log + more, from) == LineEnd(log, from)
    decreases |log| - from
  {
    assert (log + more)[from] == log[from];
    if log[from] != NEWLINE {
      LineEndStable(log, more, from + 1);
    }
  }

  // ----- bufio.Reader -----

  datatype Slice = Delimited | BufferFull | EndOfFile

  class Reader {
    const file: seq<byte>
    const bufferSize: nat
    var position: nat

    ghost predicate Valid()
      reads this
    {
      bufferSize > 0 && position <= |file|
    }

    constructor (file: seq<byte>, bufferSize: nat, position: nat)
      requires bufferSize > 0 && position <= |file|
      ensures Valid() && this.file == file && this.position == position
    {
      this.file, this.bufferSize, this.position := file, bufferSize, position;
    }

    /** ReadSlice('\n'): at most one buffer of the record at hand. */
    method ReadSlice() returns (chunk: seq<byte>, status: Slice)
      requires Valid()
      modifies this
      ensures Valid() && old(position) <= position && chunk == file[old(position)..position]
      ensures
        var end := LineEnd(file, old(position));
        match status
        case Delimited => position == end && Terminated(file, old(position))
        case BufferFull => old(position) < position <= end && (position == end ==> !Terminated(file, old(position)))
        case EndOfFile => position == end && !Terminated(file, old(position))
    {
      var end := LineEnd(file, position);
      if end - position <= bufferSize && Terminated(file, position) {
        status := Delimited;
      } else if end - position >= bufferSize {
        end, status := position + bufferSize, BufferFull;
      } else {
        status := EndOfFile;
      }
      chunk := file[position..end];
      position := end;
    }

    /** The record at the current position whatever the buffer size, or an error if it is longer than `limit`. */
    method ReadRecordLimit(limit: nat) returns (result: Result<(seq<byte>, bool), string>)
      requires Valid()
      modifies this
      ensures Valid()
      ensures result.Err? <==> LineEnd(file, old(position)) - old(position) > limit
      ensures result.Ok? ==>
        && position == LineEnd(file, old(position))
        && result.value == (file[old(position)..position], !Terminated(file, old(position)))
    {
      var record := [];
      ghost var start := position;
      while true
        invariant Valid() && start <= position
        invariant record == file[start..position] && |record| <= limit
        invariant LineEnd(file, position) == LineEnd(file, start)
        invariant Terminated(file, position) <==> Terminated(file, start)
        decreases |file| - position
      {
        ghost var before := position;
        var chunk, status := ReadSlice();
        assert file[start..before] + chunk == file[start..position];
        record := record + chunk;
        if |record| > limit {
          return Err("provider record exceeds the limit");
        }
        if status == BufferFull {
          LineEndLater(file, before, position);
          LineEndLater(file, start, position);
          continue;
        }
        return Ok((record, status == EndOfFile));
      }
    }
  }

  lemma LineEndLater(log: seq<byte>, from: nat, later: nat)
    requires from <= |log| && from <= later <= LineEnd(log, from)
    requires later == LineEnd(log, from) ==> !Terminated(log, from)
    ensures LineEnd(log, later) == LineEnd(log, from)
    ensures Terminated(log, later) <==> Terminated(log, from)
    decreases later - from
  {
    if from < later {
      if log[from] == NEWLINE {
        assert LineEnd(log, from) == from + 1;
      } else {
        LineEndLater(log, from + 1, later);
      }
    }
  }
}
